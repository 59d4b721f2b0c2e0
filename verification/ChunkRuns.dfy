/** Chunk records: how updates of one unit of work are merged, and what the store holds after any sequence of them. */
module ChunkRuns {
  import opened Wrappers
  import Ids = ChunkIds

  /** Enum values by number, 0 for unknown; instants as numbers; nil and empty maps are one. */
  datatype Chunk = Chunk(
    id: string, unit: Ids.Unit, status: int, failureClass: int, phase: string, error: string, action: string,
    startedAt: Option<int>, completedAt: Option<int>, verifiedAt: Option<int>,
    rowCounts: map<string, int>, verification: map<string, string>, metadata: map<string, string>)

  function Newer<T(==)>(before: T, update: T, none: T): T {
    if update != none then update else before
  }

  /** mergeChunkRun: identity from the update, each other field from the update if it sets it, maps united. */
  function Merged(a: Chunk, b: Chunk): Chunk {
    Chunk(b.id, b.unit, Newer(a.status, b.status, 0), Newer(a.failureClass, b.failureClass, 0),
          Newer(a.phase, b.phase, ""), Newer(a.error, b.error, ""), Newer(a.action, b.action, ""),
          Newer(a.startedAt, b.startedAt, None), Newer(a.completedAt, b.completedAt, None),
          Newer(a.verifiedAt, b.verifiedAt, None),
          a.rowCounts + b.rowCounts, a.verification + b.verification, a.metadata + b.metadata)
  }

  /** The entries under some keys. */
  function Part<V>(m: map<string, V>, keys: set<string>): map<string, V> {
    map k | k in m && k in keys :: m[k]
  }

  lemma PartNextKey<V>(base: map<string, V>, m: map<string, V>, keys: set<string>, k: string)
    requires k in m
    ensures base + Part(m, keys + {k}) == (base + Part(m, keys))[k := m[k]]
  {
  }

  lemma PartAll<V>(base: map<string, V>, m: map<string, V>)
    ensures base + Part(m, {}) == base && base + Part(m, m.Keys) == base + m
  {
  }

  /** One copying loop of the map merges: entries are written key by key, in any order. */
  method CopyInto<V>(base: map<string, V>, updates: map<string, V>) returns (merged: map<string, V>)
    ensures merged == base + updates
  {
    hide Part;
    merged := base;
    var todo := updates.Keys;
    PartAll(base, updates);
    assert updates.Keys - todo == {};
    while todo != {}
      invariant todo <= updates.Keys && merged == base + Part(updates, updates.Keys - todo)
      decreases |todo|
    {
      var k :| k in todo;
      PartNextKey(base, updates, updates.Keys - todo, k);
      assert updates.Keys - (todo - {k}) == updates.Keys - todo + {k};
      merged := merged[k := updates[k]];
      todo := todo - {k};
    }
    assert updates.Keys - todo == updates.Keys;
  }

  /** mergeStringMaps and mergeInt64Maps: neither argument is changed, and the update wins. */
  method MergeMaps<V>(base: map<string, V>, updates: map<string, V>) returns (merged: map<string, V>)
    ensures merged == base + updates
  {
    if |base| == 0 && |updates| == 0 {
      return map[];
    }
    merged := CopyInto(map[], base);
    merged := CopyInto(merged, updates);
  }

  /** The statuses and texts of a merge. */
  method MergeOutcome(existing: Chunk, update: Chunk) returns (merged: Chunk)
    ensures merged == existing.(
      status := Newer(existing.status, update.status, 0),
      failureClass := Newer(existing.failureClass, update.failureClass, 0),
      phase := Newer(existing.phase, update.phase, ""),
      error := Newer(existing.error, update.error, ""),
      action := Newer(existing.action, update.action, ""))
  {
    var status := existing.status;
    if update.status != 0 {
      status := update.status;
    }
    assert status == Newer(existing.status, update.status, 0);
    var failureClass := existing.failureClass;
    if update.failureClass != 0 {
      failureClass := update.failureClass;
    }
    assert failureClass == Newer(existing.failureClass, update.failureClass, 0);
    var phase := existing.phase;
    if update.phase != "" {
      phase := update.phase;
    }
    assert phase == Newer(existing.phase, update.phase, "");
    var error := existing.error;
    if update.error != "" {
      error := update.error;
    }
    assert error == Newer(existing.error, update.error, "");
    var action := existing.action;
    if update.action != "" {
      action := update.action;
    }
    assert action == Newer(existing.action, update.action, "");
    merged := existing.(status := status, failureClass := failureClass, phase := phase, error := error,
      action := action);
  }

  /** mergeChunkRun: a fresh record; neither argument is changed. */
  method MergeChunkRun(existing: Chunk, update: Chunk) returns (merged: Chunk)
    ensures merged == Merged(existing, update)
  {
    merged := MergeOutcome(existing, update);
    var startedAt := existing.startedAt;
    if update.startedAt != None {
      startedAt := update.startedAt;
    }
    assert startedAt == Newer(existing.startedAt, update.startedAt, None);
    var completedAt := existing.completedAt;
    if update.completedAt != None {
      completedAt := update.completedAt;
    }
    assert completedAt == Newer(existing.completedAt, update.completedAt, None);
    var verifiedAt := existing.verifiedAt;
    if update.verifiedAt != None {
      verifiedAt := update.verifiedAt;
    }
    assert verifiedAt == Newer(existing.verifiedAt, update.verifiedAt, None);
    hide Newer;
    var rowCounts := MergeMaps(existing.rowCounts, update.rowCounts);
    var verification := MergeMaps(existing.verification, update.verification);
    var metadata := MergeMaps(existing.metadata, update.metadata);
    merged := merged.(id := update.id, unit := update.unit,
                      startedAt := startedAt, completedAt := completedAt, verifiedAt := verifiedAt,
                      rowCounts := rowCounts, verification := verification, metadata := metadata);
  }

  lemma UnionIsAssociative<V>(a: map<string, V>, b: map<string, V>, c: map<string, V>)
    ensures a + b + c == a + (b + c)
  {
  }

  lemma NewerIsAssociative<T>(a: T, b: T, c: T, none: T)
    ensures Newer(Newer(a, b, none), c, none) == Newer(a, Newer(b, c, none), none)
  {
  }

  lemma MergeIsAssociative(a: Chunk, b: Chunk, c: Chunk)
    ensures Merged(Merged(a, b), c) == Merged(a, Merged(b, c))
  {
    hide Newer;
    NewerIsAssociative(a.status, b.status, c.status, 0);
    NewerIsAssociative(a.failureClass, b.failureClass, c.failureClass, 0);
    NewerIsAssociative(a.phase, b.phase, c.phase, "");
    NewerIsAssociative(a.error, b.error, c.error, "");
    NewerIsAssociative(a.action, b.action, c.action, "");
    NewerIsAssociative(a.startedAt, b.startedAt, c.startedAt, None);
    NewerIsAssociative(a.completedAt, b.completedAt, c.completedAt, None);
    NewerIsAssociative(a.verifiedAt, b.verifiedAt, c.verifiedAt, None);
    UnionIsAssociative(a.rowCounts, b.rowCounts, c.rowCounts);
    UnionIsAssociative(a.verification, b.verification, c.verification);
    UnionIsAssociative(a.metadata, b.metadata, c.metadata);
  }

  // ---------- Upserts ----------

  datatype ChunkError = StorageNotConfigured | ChunkRequired | RunRequired | ComponentRequired | RangeInverted

  function Check(c: Chunk): Option<ChunkError> {
    if c.unit.run == "" then Some(RunRequired)
    else if c.unit.component == "" then Some(ComponentRequired)
    else if c.unit.start > c.unit.end then Some(RangeInverted)
    else None
  }

  /** The record with its attempt and its id filled in. */
  function Named(c: Chunk): Chunk {
    var u := if c.unit.attempt == 0 then c.unit.(attempt := 1) else c.unit;
    c.(unit := u, id := if c.id == "" then Ids.Id(u) else c.id)
  }

  /** An upsert is refused for a missing run, then a missing component, then an inverted range, and for nothing else. */
  lemma RefusedIff(c: Chunk)
    ensures Check(c) ==
            if c.unit.run == "" then Some(RunRequired)
            else if c.unit.component == "" then Some(ComponentRequired)
            else if c.unit.end < c.unit.start then Some(RangeInverted)
            else None
    ensures Check(c).None? <==> Ids.Acceptable(Named(c).unit)
  {
  }

  /** A missing attempt becomes the first, a missing id the generated one of the unit; all else stays. */
  lemma FilledIn(c: Chunk)
    ensures Named(c).unit == Ids.Unit(c.unit.run, c.unit.component, c.unit.start, c.unit.end,
                                      if c.unit.attempt == 0 then 1 else c.unit.attempt)
    ensures c.id != "" ==> Named(c).id == c.id
    ensures c.id == "" ==> Named(c).id == Ids.Id(Named(c).unit)
    ensures Named(c).(id := c.id, unit := c.unit) == c
  {
  }

  type Chunks = map<string, Chunk>

  function Upserted(store: Chunks, c: Chunk): Chunks {
    if Check(c).Some? then store
    else
      var named := Named(c);
      store[named.id := if named.id in store then Merged(store[named.id], named) else named]
  }

  class ChunkStorage {
    var chunkRuns: Chunks

    constructor ()
      ensures chunkRuns == map[]
    {
      chunkRuns := map[];
    }
  }

  /** The server's side: the storage may be absent, and a request may carry no chunk. */
  method UpsertChunkRun(storage: ChunkStorage?, request: Option<Chunk>) returns (r: Result<Chunk, ChunkError>)
    modifies storage
    ensures r.Ok? <==> storage != null && request.Some? && Check(request.value) == None
    ensures r.Ok? ==> storage.chunkRuns == Upserted(old(storage.chunkRuns), request.value)
    ensures r.Ok? ==>
      Named(request.value).id in storage.chunkRuns && r.value == storage.chunkRuns[Named(request.value).id]
    ensures r.Err? && storage != null ==> storage.chunkRuns == old(storage.chunkRuns)
    ensures r.Err? ==>
      r.error == if storage == null then StorageNotConfigured else if request.None? then ChunkRequired
                 else Check(request.value).value
  {
    if storage == null {
      return Err(StorageNotConfigured);
    }
    if request.None? {
      return Err(ChunkRequired);
    }
    var chunk := request.value;
    if chunk.unit.run == "" {
      return Err(RunRequired);
    }
    if chunk.unit.component == "" {
      return Err(ComponentRequired);
    }
    if chunk.unit.start > chunk.unit.end {
      return Err(RangeInverted);
    }
    if chunk.unit.attempt == 0 {
      chunk := chunk.(unit := chunk.unit.(attempt := 1));
    }
    if chunk.id == "" {
      chunk := chunk.(id := Ids.Id(chunk.unit));
    }
    if chunk.id in storage.chunkRuns {
      chunk := MergeChunkRun(storage.chunkRuns[chunk.id], chunk);
    }
    storage.chunkRuns := storage.chunkRuns[chunk.id := chunk];
    r := Ok(chunk);
  }

  /** The store after a sequence of upserts, one at a time. */
  function Run(cs: seq<Chunk>): Chunks {
    if cs == [] then map[] else Upserted(Run(cs[..|cs| - 1]), cs[|cs| - 1])
  }

  /** The accepted upserts recorded under one id, named. */
  function Under(cs: seq<Chunk>, id: string): seq<Chunk> {
    if cs == [] then []
    else
      var c := cs[|cs| - 1];
      Under(cs[..|cs| - 1], id) + if Check(c).None? && Named(c).id == id then [Named(c)] else []
  }

  // ---------- What a record sums up ----------

  function Fold(xs: seq<Chunk>): Chunk
    requires xs != []
  {
    if |xs| == 1 then xs[0] else Merged(Fold(xs[..|xs| - 1]), xs[|xs| - 1])
  }

  lemma UpsertedAt(store: Chunks, c: Chunk, id: string)
    ensures var mine := Check(c).None? && Named(c).id == id;
            if mine
            then id in Upserted(store, c)
                 && Upserted(store, c)[id] == if id in store then Merged(store[id], Named(c)) else Named(c)
            else (id in Upserted(store, c) <==> id in store) && (id in store ==> Upserted(store, c)[id] == store[id])
  {
    hide Merged;
  }

  lemma FoldStep(xs: seq<Chunk>, c: Chunk)
    ensures Fold(xs + [c]) == if xs == [] then c else Merged(Fold(xs), c)
  {
    hide Merged;
    assert xs != [] ==> (xs + [c])[..|xs|] == xs;
  }

  /** Updates may be merged in batches. */
  lemma {:induction false} FoldOfBatches(xs: seq<Chunk>, ys: seq<Chunk>)
    requires xs != [] && ys != []
    ensures Fold(xs + ys) == Merged(Fold(xs), Fold(ys))
    decreases |ys|
  {
    hide Merged, Fold;
    var zs, c := ys[..|ys| - 1], ys[|ys| - 1];
    assert ys == zs + [c] && xs + ys == xs + zs + [c];
    FoldStep(zs, c);
    FoldStep(xs + zs, c);
    if zs == [] {
      assert xs + zs == xs;
    } else {
      FoldOfBatches(xs, zs);
      MergeIsAssociative(Fold(xs), Fold(zs), c);
    }
  }

  /** The store holds, under each id, the merge of the accepted upserts with that id, and nothing else. */
  lemma {:induction false} StoreHoldsFolds(cs: seq<Chunk>, id: string)
    ensures id in Run(cs) <==> Under(cs, id) != []
    ensures id in Run(cs) ==> Run(cs)[id] == Fold(Under(cs, id))
    decreases |cs|
  {
    hide Merged, Upserted, Check, Named, Fold;
    if cs != [] {
      var c, before := cs[|cs| - 1], cs[..|cs| - 1];
      StoreHoldsFolds(before, id);
      UpsertedAt(Run(before), c, id);
      FoldStep(Under(before, id), Named(c));
      assert Under(cs, id) ==
             if Check(c).None? && Named(c).id == id then Under(before, id) + [Named(c)] else Under(before, id);
    }
  }

  /** The value is the last one set among the updates, or none if none sets it. */
  ghost predicate IsLastSet<T>(xs: seq<Chunk>, get: Chunk -> T, none: T, r: T) {
    || (r == none && forall i :: 0 <= i < |xs| ==> get(xs[i]) == none)
    || (r != none && exists i :: 0 <= i < |xs| && IsLastSetter(xs, get, none, i) && get(xs[i]) == r)
  }

  ghost predicate IsLastSetter<T>(xs: seq<Chunk>, get: Chunk -> T, none: T, i: nat)
    requires i < |xs|
  {
    get(xs[i]) != none && forall j :: i < j < |xs| ==> get(xs[j]) == none
  }

  /** The map has exactly the updates' keys, each with the value of the last update that has it. */
  ghost predicate IsUnion<V>(xs: seq<Chunk>, get: Chunk -> map<string, V>, m: map<string, V>) {
    && (forall k :: k in m ==> exists i :: 0 <= i < |xs| && IsLastWith(xs, get, i, k) && get(xs[i])[k] == m[k])
    && (forall i, k :: 0 <= i < |xs| && k in get(xs[i]) ==> k in m)
  }

  ghost predicate IsLastWith<V>(xs: seq<Chunk>, get: Chunk -> map<string, V>, i: nat, k: string)
    requires i < |xs|
  {
    k in get(xs[i]) && forall j :: i < j < |xs| ==> k !in get(xs[j])
  }

  lemma LastSetStep<T>(xs: seq<Chunk>, c: Chunk, get: Chunk -> T, none: T, r: T)
    requires IsLastSet(xs, get, none, r)
    ensures IsLastSet(xs + [c], get, none, Newer(r, get(c), none))
  {
    var ys := xs + [c];
    if get(c) != none {
      assert IsLastSetter(ys, get, none, |xs|);
    } else if r != none {
      var i :| 0 <= i < |xs| && IsLastSetter(xs, get, none, i) && get(xs[i]) == r;
      assert IsLastSetter(ys, get, none, i) && get(ys[i]) == r;
    }
  }

  lemma UnionStep<V>(xs: seq<Chunk>, c: Chunk, get: Chunk -> map<string, V>, m: map<string, V>)
    requires IsUnion(xs, get, m)
    ensures IsUnion(xs + [c], get, m + get(c))
  {
    var ys, n := xs + [c], m + get(c);
    forall k | k in n ensures exists i :: 0 <= i < |ys| && IsLastWith(ys, get, i, k) && get(ys[i])[k] == n[k] {
      if k in get(c) {
        assert IsLastWith(ys, get, |xs|, k) && get(ys[|xs|])[k] == n[k];
      } else {
        var i :| 0 <= i < |xs| && IsLastWith(xs, get, i, k) && get(xs[i])[k] == m[k];
        assert IsLastWith(ys, get, i, k) && get(ys[i])[k] == n[k];
      }
    }
  }

  function StatusOf(c: Chunk): int { c.status }
  function FailureClassOf(c: Chunk): int { c.failureClass }
  function PhaseOf(c: Chunk): string { c.phase }
  function ErrorOf(c: Chunk): string { c.error }
  function ActionOf(c: Chunk): string { c.action }
  function StartedAtOf(c: Chunk): Option<int> { c.startedAt }
  function CompletedAtOf(c: Chunk): Option<int> { c.completedAt }
  function VerifiedAtOf(c: Chunk): Option<int> { c.verifiedAt }
  function RowCountsOf(c: Chunk): map<string, int> { c.rowCounts }
  function VerificationOf(c: Chunk): map<string, string> { c.verification }
  function MetadataOf(c: Chunk): map<string, string> { c.metadata }

  ghost predicate SumsUpOutcome(xs: seq<Chunk>, r: Chunk) {
    && IsLastSet(xs, StatusOf, 0, r.status) && IsLastSet(xs, FailureClassOf, 0, r.failureClass)
    && IsLastSet(xs, PhaseOf, "", r.phase) && IsLastSet(xs, ErrorOf, "", r.error)
    && IsLastSet(xs, ActionOf, "", r.action)
  }

  ghost predicate SumsUpTimes(xs: seq<Chunk>, r: Chunk) {
    && IsLastSet(xs, StartedAtOf, None, r.startedAt) && IsLastSet(xs, CompletedAtOf, None, r.completedAt)
    && IsLastSet(xs, VerifiedAtOf, None, r.verifiedAt)
  }

  ghost predicate SumsUpMaps(xs: seq<Chunk>, r: Chunk) {
    && IsUnion(xs, RowCountsOf, r.rowCounts) && IsUnion(xs, VerificationOf, r.verification)
    && IsUnion(xs, MetadataOf, r.metadata)
  }

  /** Field by field, the record says what its updates last said. */
  ghost predicate SumsUp(xs: seq<Chunk>, r: Chunk)
    requires xs != []
  {
    && r.id == xs[|xs| - 1].id && r.unit == xs[|xs| - 1].unit
    && SumsUpOutcome(xs, r) && SumsUpTimes(xs, r) && SumsUpMaps(xs, r)
  }

  lemma OutcomeStep(xs: seq<Chunk>, r: Chunk, c: Chunk)
    requires SumsUpOutcome(xs, r)
    ensures SumsUpOutcome(xs + [c], Merged(r, c))
  {
    hide IsLastSet, Newer;
    LastSetStep(xs, c, StatusOf, 0, r.status);
    LastSetStep(xs, c, FailureClassOf, 0, r.failureClass);
    LastSetStep(xs, c, PhaseOf, "", r.phase);
    LastSetStep(xs, c, ErrorOf, "", r.error);
    LastSetStep(xs, c, ActionOf, "", r.action);
  }

  lemma TimesStep(xs: seq<Chunk>, r: Chunk, c: Chunk)
    requires SumsUpTimes(xs, r)
    ensures SumsUpTimes(xs + [c], Merged(r, c))
  {
    hide IsLastSet, Newer;
    LastSetStep(xs, c, StartedAtOf, None, r.startedAt);
    LastSetStep(xs, c, CompletedAtOf, None, r.completedAt);
    LastSetStep(xs, c, VerifiedAtOf, None, r.verifiedAt);
  }

  lemma MapsStep(xs: seq<Chunk>, r: Chunk, c: Chunk)
    requires SumsUpMaps(xs, r)
    ensures SumsUpMaps(xs + [c], Merged(r, c))
  {
    hide IsUnion, Newer;
    UnionStep(xs, c, RowCountsOf, r.rowCounts);
    UnionStep(xs, c, VerificationOf, r.verification);
    UnionStep(xs, c, MetadataOf, r.metadata);
  }

  lemma OneLastSet<T>(c: Chunk, get: Chunk -> T, none: T)
    ensures IsLastSet([c], get, none, get(c))
  {
    assert get(c) != none ==> IsLastSetter([c], get, none, 0);
  }

  lemma OneUnion<V>(c: Chunk, get: Chunk -> map<string, V>)
    ensures IsUnion([c], get, get(c))
  {
    assert forall k :: k in get(c) ==> IsLastWith([c], get, 0, k);
  }

  lemma OneSumsUpItself(c: Chunk)
    ensures SumsUp([c], c)
  {
    hide IsLastSet, IsUnion;
    OneLastSet(c, StatusOf, 0);
    OneLastSet(c, FailureClassOf, 0);
    OneLastSet(c, PhaseOf, "");
    OneLastSet(c, ErrorOf, "");
    OneLastSet(c, ActionOf, "");
    OneLastSet(c, StartedAtOf, None);
    OneLastSet(c, CompletedAtOf, None);
    OneLastSet(c, VerifiedAtOf, None);
    OneUnion(c, RowCountsOf);
    OneUnion(c, VerificationOf);
    OneUnion(c, MetadataOf);
  }

  lemma {:induction false} FoldSumsUp(xs: seq<Chunk>)
    requires xs != []
    ensures SumsUp(xs, Fold(xs))
    decreases |xs|
  {
    hide SumsUpOutcome, SumsUpTimes, SumsUpMaps;
    if |xs| == 1 {
      OneSumsUpItself(xs[0]);
      assert [xs[0]] == xs;
    } else {
      var ys, c := xs[..|xs| - 1], xs[|xs| - 1];
      FoldSumsUp(ys);
      OutcomeStep(ys, Fold(ys), c);
      TimesStep(ys, Fold(ys), c);
      MapsStep(ys, Fold(ys), c);
      assert ys + [c] == xs;
    }
  }

  // ---------- One record per unit of work ----------

  /** The accepted updates of one unit of work. */
  function UpdatesOf(cs: seq<Chunk>, u: Ids.Unit): seq<Chunk> {
    if cs == [] then []
    else
      var c := cs[|cs| - 1];
      UpdatesOf(cs[..|cs| - 1], u) + if Check(c).None? && Named(c).unit == u then [Named(c)] else []
  }

  function RunIds(cs: seq<Chunk>): set<string> {
    set i | 0 <= i < |cs| :: cs[i].unit.run
  }

  lemma {:induction false} UnitsHaveTheirOwnIds(cs: seq<Chunk>, u: Ids.Unit, runs: set<string>)
    requires forall i :: 0 <= i < |cs| ==> cs[i].id == "" && cs[i].unit.run in runs
    requires Ids.Distinguishable(runs) && u.run in runs
    ensures Under(cs, Ids.Id(u)) == UpdatesOf(cs, u)
    decreases |cs|
  {
    if cs != [] {
      var c := cs[|cs| - 1];
      UnitsHaveTheirOwnIds(cs[..|cs| - 1], u, runs);
      if Named(c).id == Ids.Id(u) {
        Ids.IdInjective(Named(c).unit, u, runs);
      }
    }
  }

  /**
   With generated ids, and run ids of which none followed by a colon begins another, every unit of work has one record:
   what its own updates last said, and nothing from any other unit.
   */
  lemma EveryUnitHasItsOwnRecord(cs: seq<Chunk>, u: Ids.Unit)
    requires forall i :: 0 <= i < |cs| ==> cs[i].id == ""
    requires Ids.Distinguishable(RunIds(cs) + {u.run})
    ensures Ids.Id(u) in Run(cs) <==> UpdatesOf(cs, u) != []
    ensures Ids.Id(u) in Run(cs) ==> Run(cs)[Ids.Id(u)].unit == u && SumsUp(UpdatesOf(cs, u), Run(cs)[Ids.Id(u)])
  {
    hide SumsUpOutcome, SumsUpTimes, SumsUpMaps;
    forall i | 0 <= i < |cs| ensures cs[i].unit.run in RunIds(cs) + {u.run} {
    }
    UnitsHaveTheirOwnIds(cs, u, RunIds(cs) + {u.run});
    StoreHoldsFolds(cs, Ids.Id(u));
    if UpdatesOf(cs, u) != [] {
      FoldSumsUp(UpdatesOf(cs, u));
      UpdatesAreOf(cs, u);
    }
  }

  lemma {:induction false} UpdatesAreOf(cs: seq<Chunk>, u: Ids.Unit)
    ensures forall i :: 0 <= i < |UpdatesOf(cs, u)| ==> UpdatesOf(cs, u)[i].unit == u
    decreases |cs|
  {
    if cs != [] {
      UpdatesAreOf(cs[..|cs| - 1], u);
    }
  }
}
