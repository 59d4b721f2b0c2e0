/** The service registry as values: a cache and a store of records, and what each operation does to them. */
module RegistrySpec {
  datatype Health = Unknown | Healthy | Unhealthy | Other(number: nat)

  datatype Info = Info(id: string, description: string)

  datatype Status = Status(
    component: Info, health: Health, lastHeartbeat: int, metrics: map<string, string>, registeredAt: int)

  datatype Record = Record(info: Info, status: Status, lastSeen: int)

  datatype Beat = Beat(health: Health, metrics: map<string, string>)

  const RUN_ID := "delivery_run_id"

  /** A missing metric reads as the empty string. */
  function RunId(metrics: map<string, string>): string {
    if RUN_ID in metrics then metrics[RUN_ID] else ""
  }

  /** mergeStringMaps: the update wins. */
  function Merge(base: map<string, string>, updates: map<string, string>): map<string, string> {
    base + updates
  }

  function FreshRecord(info: Info, now: int): Record {
    Record(info, Status(info, Healthy, now, map[], now), now)
  }

  /** The health after a heartbeat: a recorded delivery failure is not overridden by a claim to be healthy. */
  function HealthAfter(before: Health, claim: Health, runId: string): Health {
    if claim != Unknown && !(runId != "" && claim == Healthy) then claim
    else if before == Unknown then Healthy
    else before
  }

  function StatusAfter(s: Status, b: Beat, now: int): Status {
    var metrics := Merge(s.metrics, b.metrics);
    s.(metrics := metrics, health := HealthAfter(s.health, b.health, RunId(metrics)), lastHeartbeat := now)
  }

  function RecordAfter(r: Record, b: Beat, now: int): Record {
    r.(status := StatusAfter(r.status, b, now), lastSeen := now)
  }

  /** No heartbeat for longer than the time to live. */
  predicate Stale(r: Record, now: int, ttl: nat) {
    r.lastSeen < now - ttl
  }

  function MarkedUnhealthy(r: Record): Record {
    r.(status := r.status.(health := Unhealthy))
  }

  predicate Demotes(r: Record, now: int, ttl: nat) {
    Stale(r, now, ttl) && r.status.health == Healthy
  }

  /** The id a component is registered under in the cache; the store always uses the component's own id. */
  function ServiceId(componentId: string, info: Info, generated: string): string {
    if componentId != "" then componentId else if info.id != "" then info.id else generated
  }

  type Records = map<string, Record>

  datatype State = State(cache: Records, store: Records)

  datatype Op =
    | Register(componentId: string, info: Info, generated: string, now: int)
    | Heartbeat(id: string, beat: Beat, now: int)
    | Janitor(now: int)
    | Unregister(id: string)
    | Restart

  /** Where registrations are persisted: nowhere, in a map sharing the cache's objects, or in a file of copies. */
  datatype Backend = None | Memory | Bolt

  /** Storing a record under its component's id; the file backend refuses the empty key. */
  function Put(store: Records, r: Record, backend: Backend): Records {
    if backend.None? || (backend.Bolt? && r.info.id == "") then store else store[r.info.id := r]
  }

  function BeatIn(m: Records, id: string, b: Beat, now: int): Records {
    if id in m then m[id := RecordAfter(m[id], b, now)] else m
  }

  /** A janitor pass that has looked at the cache's ids in `swept`, and the same demotions written to the store. */
  function SweptCache(cache: Records, swept: set<string>, now: int, ttl: nat): Records {
    map id | id in cache ::
      if id in swept && Demotes(cache[id], now, ttl) then MarkedUnhealthy(cache[id]) else cache[id]
  }

  function SweptStore(cache: Records, store: Records, swept: set<string>, now: int, ttl: nat): Records {
    map id | id in store ::
      if id in swept && id in cache && Demotes(cache[id], now, ttl) then MarkedUnhealthy(store[id]) else store[id]
  }

  /** loadServices: each stored record under its component's id. */
  function Loaded(store: Records): Records {
    map id | id in store && store[id].info.id == id :: store[id]
  }

  datatype Setup = Setup(ttl: nat, backend: Backend)

  function Apply(s: State, op: Op, setup: Setup): State {
    match op
    case Register(componentId, info, generated, now) =>
      State(s.cache[ServiceId(componentId, info, generated) := FreshRecord(info, now)],
            Put(s.store, FreshRecord(info, now), setup.backend))
    case Heartbeat(id, b, now) =>
      if id in s.cache then State(BeatIn(s.cache, id, b, now), BeatIn(s.store, id, b, now)) else s
    case Janitor(now) =>
      State(SweptCache(s.cache, s.cache.Keys, now, setup.ttl),
            SweptStore(s.cache, s.store, s.cache.Keys, now, setup.ttl))
    case Unregister(id) => State(s.cache - {id}, s.store - {id})
    case Restart => State(Loaded(s.store), s.store)
  }

  // ---------- What each operation does, field by field ----------

  /**
   Exactly the records of services that the cache had as healthy, and has not seen for longer than the time to live, are
   the same records with health UNHEALTHY; all others are unchanged.
   */
  predicate DemotedWhereDue(cached: Records, before: Records, after: Records, now: int, ttl: nat) {
    && after.Keys == before.Keys
    && forall id :: id in before ==>
         after[id] ==
         if id in cached && cached[id].status.health == Healthy && now - cached[id].lastSeen > ttl
         then before[id].(status := before[id].status.(health := Unhealthy))
         else before[id]
  }

  /** A janitor pass does that to the cache and to the store. */
  lemma JanitorDemotes(s: State, now: int, setup: Setup)
    ensures var t := Apply(s, Janitor(now), setup);
            && DemotedWhereDue(s.cache, s.cache, t.cache, now, setup.ttl)
            && DemotedWhereDue(s.cache, s.store, t.store, now, setup.ttl)
  {
  }

  /** The run id that the record's metrics hold once those of a heartbeat are merged in; empty if there is none. */
  function RunIdAfter(before: map<string, string>, update: map<string, string>): string {
    if "delivery_run_id" in update then update["delivery_run_id"]
    else if "delivery_run_id" in before then before["delivery_run_id"]
    else ""
  }

  /**
   A heartbeat is seen now, adds its metrics over those there were, and sets the health it claims. A claim of Unknown,
   or of Healthy while a run id is recorded, leaves the health as it was, but an unknown one becomes healthy.
   */
  lemma HeartbeatUpdates(r: Record, b: Beat, now: int)
    ensures var a := RecordAfter(r, b, now);
            && a.info == r.info && a.lastSeen == now && a.status.lastHeartbeat == now
            && a.status.component == r.status.component && a.status.registeredAt == r.status.registeredAt
            && (forall k :: k in a.status.metrics <==> k in r.status.metrics || k in b.metrics)
            && (forall k :: k in a.status.metrics ==>
                  a.status.metrics[k] == if k in b.metrics then b.metrics[k] else r.status.metrics[k])
            && a.status.health ==
               if b.health == Unknown || (b.health == Healthy && RunIdAfter(r.status.metrics, b.metrics) != "")
               then (if r.status.health == Unknown then Healthy else r.status.health)
               else b.health
  {
  }

  /**
   A heartbeat changes the record of its id in the cache, and in the store if it has one; a stranger's changes
   nothing.
   */
  lemma HeartbeatIsForOne(s: State, id: string, b: Beat, now: int, setup: Setup)
    ensures var t := Apply(s, Heartbeat(id, b, now), setup);
            && (id !in s.cache ==> t == s)
            && (id in s.cache ==>
                  && t.cache == s.cache[id := RecordAfter(s.cache[id], b, now)]
                  && t.store == if id in s.store then s.store[id := RecordAfter(s.store[id], b, now)] else s.store)
  {
  }

  /** The service id is the requested one, else the component's own, else a generated one. */
  lemma ServiceIdIs(componentId: string, info: Info, generated: string)
    ensures componentId != "" ==> ServiceId(componentId, info, generated) == componentId
    ensures componentId == "" && info.id != "" ==> ServiceId(componentId, info, generated) == info.id
    ensures componentId == "" && info.id == "" ==> ServiceId(componentId, info, generated) == generated
  {
  }

  /**
   A registration records a healthy service without metrics, registered and seen now; in the cache under the service id,
   in the store, if there is one, under the component's own id, which the file backend demands not to be empty.
   */
  lemma RegistrationRecords(s: State, componentId: string, info: Info, generated: string, now: int, setup: Setup)
    ensures var t := Apply(s, Register(componentId, info, generated, now), setup);
            var added := Record(info, Status(info, Healthy, now, map[], now), now);
            && t.cache == s.cache[ServiceId(componentId, info, generated) := added]
            && (setup.backend == None || (setup.backend == Bolt && info.id == "") ==> t.store == s.store)
            && (setup.backend == Memory || (setup.backend == Bolt && info.id != "") ==>
                  t.store == s.store[info.id := added])
  {
  }

  /** Removal takes the id out of cache and store; a restart forgets the cache and reads the store. */
  lemma RemovalAndRestart(s: State, id: string, setup: Setup)
    ensures var t := Apply(s, Unregister(id), setup);
            && id !in t.cache && id !in t.store
            && (forall k :: k != id ==> (k in t.cache <==> k in s.cache) && (k in t.store <==> k in s.store))
            && (forall k :: k in t.cache ==> t.cache[k] == s.cache[k])
            && forall k :: k in t.store ==> t.store[k] == s.store[k]
    ensures Keyed(s.store) ==> Apply(s, Restart, setup) == State(s.store, s.store)
  {
    if Keyed(s.store) {
      assert Loaded(s.store) == s.store;
    }
  }

  // ---------- Cache and store agree ----------

  /** Every record is kept under its component's id. */
  predicate Keyed(m: Records) {
    forall id :: id in m ==> m[id].info.id == id
  }

  predicate Coherent(s: State) {
    s.cache == s.store && Keyed(s.cache)
  }

  /** A registration whose service id is the component's own. */
  predicate OwnId(op: Op) {
    op.Register? ==> op.info.id != "" && ServiceId(op.componentId, op.info, op.generated) == op.info.id
  }

  predicate AllOwnIds(ops: seq<Op>) {
    forall i :: 0 <= i < |ops| ==> OwnId(ops[i])
  }

  lemma ApplyKeepsCoherent(s: State, op: Op, setup: Setup)
    requires Coherent(s) && OwnId(op) && !setup.backend.None?
    ensures Coherent(Apply(s, op, setup))
  {
    if op.Restart? {
      assert Loaded(s.store) == s.store;
    }
  }

  function Run(s: State, ops: seq<Op>, setup: Setup): State
    decreases |ops|
  {
    if ops == [] then s else Run(Apply(s, ops[0], setup), ops[1..], setup)
  }

  /** In every reachable state the store holds exactly the cache's records, so that a restart restores the cache. */
  lemma {:induction false} EveryRunIsCoherent(s: State, ops: seq<Op>, setup: Setup)
    requires Coherent(s) && AllOwnIds(ops) && !setup.backend.None?
    ensures Coherent(Run(s, ops, setup))
    ensures Apply(Run(s, ops, setup), Restart, setup) == Run(s, ops, setup)
    decreases |ops|
  {
    if ops == [] {
      assert Loaded(s.store) == s.store;
    } else {
      ApplyKeepsCoherent(s, ops[0], setup);
      EveryRunIsCoherent(Apply(s, ops[0], setup), ops[1..], setup);
    }
  }

  /**
   The hypothesis on ids is exact: after a fresh registration cache and store still hold the same records iff the
   registration uses the component's own id.
   */
  lemma RegisterCoherentIff(s: State, op: Op, setup: Setup)
    requires Coherent(s) && !setup.backend.None? && op.Register? && op.generated != ""
    requires forall id :: id in s.cache ==> s.cache[id].lastSeen < op.now
    ensures Apply(s, op, setup).cache == Apply(s, op, setup).store <==> OwnId(op)
  {
    var sid := ServiceId(op.componentId, op.info, op.generated);
    if OwnId(op) {
      ApplyKeepsCoherent(s, op, setup);
    } else {
      var t := Apply(s, op, setup);
      assert t.cache[sid] == FreshRecord(op.info, op.now);
      if sid in t.store {
        assert t.store[sid] == s.store[sid];
      }
    }
  }

  /** A component "y" that registers as "x": the cache knows only "x", the store only "y", and a restart renames it. */
  lemma RegisteredUnderAnotherName(description: string, now: int, ttl: nat)
    ensures var info, setup := Info("y", description), Setup(ttl, Memory);
            var s := Apply(State(map[], map[]), Register("x", info, "generated", now), setup);
            && s.cache == map["x" := FreshRecord(info, now)] && s.store == map["y" := FreshRecord(info, now)]
            && s.cache != s.store && Apply(s, Restart, setup).cache == s.store
  {
    var info, setup := Info("y", description), Setup(ttl, Memory);
    var s := Apply(State(map[], map[]), Register("x", info, "generated", now), setup);
    assert "x" != "y" && "x" in s.cache && "x" !in s.store;
    assert Loaded(s.store) == s.store;
  }

  /** Applying a heartbeat twice is applying it once: what makes the sharing of status objects harmless. */
  lemma HeartbeatIsIdempotent(s: Status, b: Beat, now: int)
    ensures StatusAfter(StatusAfter(s, b, now), b, now) == StatusAfter(s, b, now)
  {
    assert Merge(Merge(s.metrics, b.metrics), b.metrics) == Merge(s.metrics, b.metrics);
  }

  // ---------- A delivery failure stays visible ----------

  /**
   The record shows a delivery failure: a run id is recorded, and the service neither is nor may silently become
   healthy.
   */
  predicate Failed(r: Record) {
    RunId(r.status.metrics) != "" && r.status.health != Healthy && r.status.health != Unknown
  }

  /** A heartbeat makes such a service healthy exactly if it claims health and blanks the run id. */
  lemma HealsIff(r: Record, b: Beat, now: int)
    requires Failed(r)
    ensures RecordAfter(r, b, now).status.health == Healthy <==>
      b.health == Healthy && RunId(Merge(r.status.metrics, b.metrics)) == ""
  {
  }

  /** The operation neither registers nor removes service id, and does not blank its run id. */
  predicate LeavesFailure(op: Op, id: string) {
    match op
    case Register(c, info, generated, _) => ServiceId(c, info, generated) != id
    case Heartbeat(i, b, _) => i == id && RUN_ID in b.metrics ==> b.metrics[RUN_ID] != ""
    case Unregister(i) => i != id
    case _ => true
  }

  lemma ApplyKeepsFailed(s: State, op: Op, id: string, setup: Setup)
    requires LeavesFailure(op, id) && id in s.cache && Failed(s.cache[id])
    requires op.Restart? ==> Coherent(s)
    ensures var t := Apply(s, op, setup); id in t.cache && Failed(t.cache[id])
    ensures var t := Apply(s, op, setup);
            (op.Heartbeat? && op.id == id ==> op.beat.health == Unknown || op.beat.health == Healthy) ==>
            t.cache[id].status.health == s.cache[id].status.health
  {
    if op.Restart? {
      assert Loaded(s.store) == s.store;
    }
  }

  /** Heartbeats for id in `ops` claim nothing or health. */
  predicate OnlyMildBeats(ops: seq<Op>, id: string) {
    forall i :: 0 <= i < |ops| && ops[i].Heartbeat? && ops[i].id == id ==>
      ops[i].beat.health == Unknown || ops[i].beat.health == Healthy
  }

  /** Restarts come back with what the cache held. */
  predicate Durable(s: State, ops: seq<Op>, setup: Setup) {
    || (forall i :: 0 <= i < |ops| ==> !ops[i].Restart?)
    || (Coherent(s) && AllOwnIds(ops) && !setup.backend.None?)
  }

  /**
   The memory backend keeps the cache's own status objects. Only where every service is registered under its component's
   id is each of them its own service's alone; a file of copies shares nothing.
   */
  predicate OwnObjects(s: State, ops: seq<Op>, setup: Setup) {
    setup.backend.Memory? ==> Keyed(s.cache) && AllOwnIds(ops)
  }

  lemma ApplyKeepsKeyed(s: State, op: Op, setup: Setup)
    requires Keyed(s.cache) && OwnId(op)
    ensures Keyed(Apply(s, op, setup).cache)
  {
  }

  /**
   Once a delivery failure is recorded, no sequence of heartbeats, janitor passes, other services' registrations and
   restarts makes the service healthy; if its own heartbeats claim nothing worse, its health does not change at all.
   With objects kept in memory this takes registrations under the components' own ids.
   */
  lemma {:induction false} FailureStaysVisible(s: State, ops: seq<Op>, id: string, setup: Setup)
    requires id in s.cache && Failed(s.cache[id]) && Durable(s, ops, setup) && OwnObjects(s, ops, setup)
    requires forall i :: 0 <= i < |ops| ==> LeavesFailure(ops[i], id)
    ensures id in Run(s, ops, setup).cache && Failed(Run(s, ops, setup).cache[id])
    ensures OnlyMildBeats(ops, id) ==>
      Run(s, ops, setup).cache[id].status.health == s.cache[id].status.health
    decreases |ops|
  {
    if ops != [] {
      if Coherent(s) && AllOwnIds(ops) && !setup.backend.None? {
        ApplyKeepsCoherent(s, ops[0], setup);
      }
      if setup.backend.Memory? {
        ApplyKeepsKeyed(s, ops[0], setup);
      }
      ApplyKeepsFailed(s, ops[0], id, setup);
      FailureStaysVisible(Apply(s, ops[0], setup), ops[1..], id, setup);
    }
  }
}
