/**
 Rest and cycles: a network whose lists fit into its channels comes to rest, from whatever state, exactly if it is
 acyclic. In a cyclic one a message can go round forever, though Stop was called and sources are silent.
 */
module DagCycle {
  import opened Wrappers
  import opened DagEngine
  import opened DagSafety
  import opened DagShutdown

  // ---------- Acyclic, or a core of channels that feed each other ----------

  predicate Writes(job: Job, d: nat) {
    match job
    case Adapter(_, _, target) => target == Some(d)
    case Loop(_, outputs) => exists t :: t in outputs && d in outputs[t]
  }

  /** What is taken from channel c may be passed on to channel d. */
  predicate Feeds(net: Network, c: nat, d: nat) {
    exists w :: 0 <= w < |net.jobs| && net.jobs[w].input == c && Writes(net.jobs[w], d)
  }

  /** The channels of `cs` that feed one of `cs`. */
  ghost function Survivors(net: Network, cs: set<nat>): (r: set<nat>)
    ensures r <= cs
  {
    set c | c in cs && exists d :: d in cs && Feeds(net, c, d)
  }

  /** What is left when channels that feed nothing left are taken away, again and again. */
  ghost function Core(net: Network, cs: set<nat>): (r: set<nat>)
    ensures r <= cs && Survivors(net, r) == r
    decreases cs
  {
    if Survivors(net, cs) == cs then cs else Core(net, Survivors(net, cs))
  }

  /** Channels taken away earlier rank higher. */
  ghost function RankIn(net: Network, cs: set<nat>, c: nat): nat
    decreases cs
  {
    if Survivors(net, cs) == cs then 0
    else if c !in Survivors(net, cs) then |cs|
    else RankIn(net, Survivors(net, cs), c)
  }

  lemma {:induction false} SmallerSet<T>(a: set<T>, b: set<T>)
    requires a <= b && a != b
    ensures |a| < |b|
  {
    var x :| x in b && x !in a;
    assert a <= b - {x};
    NoLargerSet(a, b - {x});
  }

  lemma {:induction false} NoLargerSet<T>(a: set<T>, b: set<T>)
    requires a <= b
    ensures |a| <= |b|
    decreases |a|
  {
    if a != {} {
      var x :| x in a;
      NoLargerSet(a - {x}, b - {x});
    }
  }

  lemma {:induction false} RankInBound(net: Network, cs: set<nat>, c: nat)
    ensures RankIn(net, cs, c) <= |cs|
    decreases cs
  {
    hide Survivors;
    var rest := Survivors(net, cs);
    if rest != cs {
      SmallerSet(rest, cs);
      RankInBound(net, rest, c);
    }
  }

  lemma FeederSurvives(net: Network, cs: set<nat>, c: nat, d: nat)
    requires c in cs && d in cs && Feeds(net, c, d)
    ensures c in Survivors(net, cs)
  {
  }

  lemma {:induction false} RankInGrows(net: Network, cs: set<nat>, c: nat, d: nat)
    requires Core(net, cs) == {} && c in cs && d in cs && Feeds(net, c, d)
    ensures RankIn(net, cs, c) < RankIn(net, cs, d)
    decreases cs
  {
    hide Survivors, Feeds;
    var rest := Survivors(net, cs);
    FeederSurvives(net, cs, c, d);
    assert rest != cs;
    SmallerSet(rest, cs);
    if d in rest {
      RankInGrows(net, rest, c, d);
    } else {
      RankInBound(net, rest, c);
    }
  }

  /** The numbers below n. */
  function Below(n: nat): (r: set<nat>)
    ensures forall c: nat :: c in r <==> c < n
  {
    if n == 0 then {} else Below(n - 1) + {n - 1}
  }

  function Channels(net: Network): set<nat> {
    Below(|net.kinds|)
  }

  ghost predicate Acyclic(net: Network) {
    exists rank, height :: Ranked(net, rank, height)
  }

  /** With an empty core the channels can be ranked. */
  lemma EmptyCoreIsAcyclic(net: Network)
    requires net.WellFormed() && Core(net, Channels(net)) == {}
    ensures Acyclic(net)
  {
    var all := Channels(net);
    var rank: seq<nat> := seq(|net.kinds|, c requires 0 <= c < |net.kinds| => RankIn(net, all, c));
    forall c | 0 <= c < |rank| ensures rank[c] < |all| + 1 {
      RankInBound(net, all, c);
    }
    forall w | 0 <= w < |net.jobs| ensures Upward(net.jobs[w], rank) {
      assert net.JobFits(net.jobs[w]);
      JobGoesUp(net, w, rank);
    }
    assert Ranked(net, rank, |all| + 1);
  }

  lemma JobGoesUp(net: Network, w: nat, rank: seq<nat>)
    requires w < |net.jobs| && net.JobFits(net.jobs[w]) && Core(net, Channels(net)) == {}
    requires |rank| == |net.kinds| && forall c :: 0 <= c < |rank| ==> rank[c] == RankIn(net, Channels(net), c)
    ensures Upward(net.jobs[w], rank)
  {
    hide Core, RankIn;
    var job := net.jobs[w];
    match job {
      case Adapter(c, _, target) =>
        if target.Some? {
          assert Writes(job, target.value) && Feeds(net, c, target.value);
          RankInGrows(net, Channels(net), c, target.value);
        }
      case Loop(c, outputs) =>
        forall t, k | t in outputs && 0 <= k < |outputs[t]|
          ensures outputs[t][k] < |rank| && rank[c] < rank[outputs[t][k]]
        {
          assert Writes(job, outputs[t][k]) && Feeds(net, c, outputs[t][k]);
          RankInGrows(net, Channels(net), c, outputs[t][k]);
        }
    }
  }

  // ---------- A message that goes round ----------

  /** Every list fits into one channel. */
  predicate Roomy(net: Network) {
    forall w, t :: 0 <= w < |net.jobs| && net.jobs[w].Loop? && t in net.jobs[w].outputs ==>
      |net.jobs[w].outputs[t]| <= net.capacity
  }

  /** Every input channel that a list names is read by some loop. */
  predicate AllRead(net: Network) {
    forall w, t :: 0 <= w < |net.jobs| && net.jobs[w].Loop? && t in net.jobs[w].outputs ==>
      ListRead(net, net.jobs[w].outputs[t])
  }

  predicate ListRead(net: Network, channels: seq<nat>) {
    forall k :: 0 <= k < |channels| ==> Drained(net, channels[k])
  }

  /** What is sent to the channel can be taken from it. */
  predicate Drained(net: Network, c: nat) {
    c < |net.kinds| && (net.kinds[c] == SinkChannel || Reader(net, c))
  }

  predicate Reader(net: Network, c: nat) {
    exists w :: 0 <= w < |net.jobs| && net.jobs[w].Loop? && net.jobs[w].input == c
  }

  /** Where the run stands: between messages, dropping a copy, or with the message on its way to the next channel. */
  datatype Mode = Resting | Dropping(worker: nat) | Carrying(worker: nat, eventType: string) | Spreading(worker: nat)

  /** `goal`: the channel whose message is kept. */
  datatype Config = Config(state: State, mode: Mode, goal: nat)

  predicate Idle(s: State)
    requires s.Shaped()
  {
    forall v :: 0 <= v < |s.workers| && s.net.jobs[v].Loop? ==> s.workers[v].pc.Selecting?
  }

  predicate IdleBut(s: State, w: nat)
    requires s.Shaped()
  {
    && w < |s.workers| && s.net.jobs[w].Loop?
    && forall v :: 0 <= v < |s.workers| && v != w && s.net.jobs[v].Loop? ==> s.workers[v].pc.Selecting?
  }

  predicate Holds(s: State, c: nat)
  {
    c < |s.channels| && s.channels[c].buffer != []
  }

  /** Stop waits, and input and sink channels are open. */
  predicate Waiting(net: Network, s: State) {
    && s.Shaped() && s.net == net && !s.panicked && s.stopper == WaitingMain
    && forall c :: 0 <= c < |s.channels| && net.kinds[c] != SourceChannel ==> !s.channels[c].closed
  }

  /** Whatever is buffered but at sources can be taken. */
  predicate Drainable(net: Network, s: State)
    requires s.Shaped() && s.net == net
  {
    forall c :: 0 <= c < |s.channels| && net.kinds[c] != SourceChannel && s.channels[c].buffer != [] ==> Drained(net, c)
  }

  /** Nothing is buffered but at sources. */
  predicate Empty(s: State)
    requires s.Shaped()
  {
    forall c :: 0 <= c < |s.channels| && s.net.kinds[c] != SourceChannel ==> s.channels[c].buffer == []
  }

  predicate Goes(p: seq<Delivery>, c: nat) {
    exists i :: 0 <= i < |p| && p[i].channel == c
  }

  /** What is in hand fits into every channel, and goes to no source channel. */
  predicate Fits(net: Network, s: State, p: seq<Delivery>)
    requires s.Shaped() && s.net == net
  {
    && (forall c :: 0 <= c < |s.channels| && net.kinds[c] != SourceChannel ==>
          |s.channels[c].buffer| + |p| <= net.capacity)
    && forall i :: 0 <= i < |p| ==>
         p[i].channel < |net.kinds| && net.kinds[p[i].channel] != SourceChannel && Drained(net, p[i].channel)
  }

  ghost predicate Good(net: Network, core: set<nat>, cf: Config) {
    var s := cf.state;
    && Waiting(net, s) && Drainable(net, s)
    && cf.goal in core && cf.goal < |net.kinds| && net.kinds[cf.goal] == InputChannel
    && match cf.mode
       case Resting => Idle(s) && Holds(s, cf.goal)
       case Dropping(w) => IdleBut(s, w) && s.workers[w].pc.Processing? && Holds(s, cf.goal)
       case Carrying(w, t) =>
         && IdleBut(s, w) && s.workers[w].pc.Processing? && Empty(s)
         && t in net.jobs[w].outputs && cf.goal in net.jobs[w].outputs[t]
       case Spreading(w) =>
         && IdleBut(s, w) && s.workers[w].pc.Sending? && s.workers[w].pc.pending != []
         && Fits(net, s, s.workers[w].pc.pending) && (Holds(s, cf.goal) || Goes(s.workers[w].pc.pending, cf.goal))
  }

  /** One step of the DAG, not a source's, leads to the next good configuration. */
  ghost predicate Continues(net: Network, core: set<nat>, cf: Config, next: Config) {
    QuietlyTo(cf.state, next.state) && Good(net, core, next)
  }

  /** What a step of one goroutine does not touch. */
  predicate Untouched(s: State, t: State) {
    && s.Shaped() && t.Shaped() && t.net == s.net && t.stopper == s.stopper && !t.panicked
    && forall c :: 0 <= c < |s.channels| ==> t.channels[c].closed == s.channels[c].closed
  }

  lemma StaysWaiting(net: Network, s: State, t: State)
    requires Waiting(net, s) && Untouched(s, t)
    ensures Waiting(net, t)
  {
  }

  lemma ProcessedDoes(s: State, w: nat, result: Option<seq<Message>>)
    requires s.Shaped() && !s.panicked && w < |s.workers| && s.workers[w].pc.Processing?
    ensures CanStep(s, Processed(w, result))
    ensures var t := Next(s, Processed(w, result));
            && Untouched(s, t) && t.channels == s.channels
            && t.workers[w].pc == SendOrSelect(if result.Some? then Fanned(s.net.jobs[w], result.value) else [])
            && forall v :: 0 <= v < |s.workers| && v != w ==> t.workers[v] == s.workers[v]
  {
    hide Fanned;
    var t := Next(s, Processed(w, result));
    assert forall c :: 0 <= c < |s.channels| ==> t.channels[c] == s.channels[c];
  }

  lemma DropGoesOn(net: Network, core: set<nat>, cf: Config)
    requires Good(net, core, cf) && cf.mode.Dropping?
    ensures Continues(net, core, cf, Config(Next(cf.state, Processed(cf.mode.worker, None)), Resting, cf.goal))
  {
    hide CanStep, Next, Waiting, Untouched;
    var s, w := cf.state, cf.mode.worker;
    WaitingIsShaped(net, s);
    ProcessedDoes(s, w, None);
    var t := Next(s, Processed(w, None));
    StaysWaiting(net, s, t);
    WaitingIsShaped(net, t);
    assert !FromSource(Processed(w, None));
  }

  lemma WaitingIsShaped(net: Network, s: State)
    requires Waiting(net, s)
    ensures s.Shaped() && s.net == net && !s.panicked && |s.channels| == |net.kinds| && |s.workers| == |net.jobs|
  {
  }

  /** One message of a type goes once to every channel of its list. */
  lemma OneFanned(job: Job, t: string, payload: string)
    requires job.Loop? && t in job.outputs
    ensures var p := Fanned(job, [Message(t, payload)]);
            |p| == |job.outputs[t]| && forall i :: 0 <= i < |p| ==> p[i].channel == job.outputs[t][i]
  {
    hide ToAll;
    var m := Message(t, payload);
    assert [m][..0] == [];
    assert Fanned(job, []) == [];
    assert Fanned(job, [m]) == [] + ToAll(job.outputs[t], m);
    ToAllIs(job.outputs[t], m);
  }

  lemma CarryGoesOn(net: Network, core: set<nat>, cf: Config)
    requires Good(net, core, cf) && cf.mode.Carrying? && Roomy(net) && AllRead(net)
    ensures var w, t := cf.mode.worker, cf.mode.eventType;
            Continues(net, core, cf,
              Config(Next(cf.state, Processed(w, Some([Message(t, "")]))), Spreading(w), cf.goal))
  {
    hide CanStep, Next, Waiting, Untouched, Fanned;
    var s, w, t := cf.state, cf.mode.worker, cf.mode.eventType;
    WaitingIsShaped(net, s);
    OneFanned(net.jobs[w], t, "");
    ProcessedDoes(s, w, Some([Message(t, "")]));
    var next := Next(s, Processed(w, Some([Message(t, "")])));
    StaysWaiting(net, s, next);
    WaitingIsShaped(net, next);
    assert !FromSource(Processed(w, Some([Message(t, "")])));
    var p := Fanned(net.jobs[w], [Message(t, "")]);
    var k :| 0 <= k < |net.jobs[w].outputs[t]| && net.jobs[w].outputs[t][k] == cf.goal;
    assert p[k].channel == cf.goal;
    assert net.JobFits(net.jobs[w]) && ListRead(net, net.jobs[w].outputs[t]);
  }

  /** A send into a channel with room: the message is there, and the rest is still in hand. */
  lemma SendDoes(s: State, w: nat)
    requires s.Shaped() && !s.panicked && IsSending(s, w)
    requires !s.channels[Pending(s, w).channel].closed && |s.channels[Pending(s, w).channel].buffer| < s.net.capacity
    ensures CanStep(s, Send(w))
    ensures var t, c := Next(s, Send(w)), Pending(s, w).channel;
            && Untouched(s, t) && t.workers[w].pc == SendOrSelect(s.workers[w].pc.pending[1..])
            && t.channels[c].buffer == s.channels[c].buffer + [Pending(s, w).msg]
            && (forall d :: 0 <= d < |s.channels| && d != c ==> t.channels[d] == s.channels[d])
            && forall v :: 0 <= v < |s.workers| && v != w ==> t.workers[v] == s.workers[v]
  {
    hide Fanned;
  }

  lemma SpreadGoesOn(net: Network, core: set<nat>, cf: Config) returns (next: Config)
    requires Good(net, core, cf) && cf.mode.Spreading?
    ensures Continues(net, core, cf, next)
  {
    hide CanStep, Next, Untouched, Drained;
    var s, w := cf.state, cf.mode.worker;
    var p := s.workers[w].pc.pending;
    SendDoes(s, w);
    var t := Next(s, Send(w));
    hide Waiting;
    StaysWaiting(net, s, t);
    WaitingIsShaped(net, s);
    WaitingIsShaped(net, t);
    assert !FromSource(Send(w));
    next := Config(t, if p[1..] == [] then Resting else Spreading(w), cf.goal);
    if !Holds(t, cf.goal) {
      var i :| 0 <= i < |p| && p[i].channel == cf.goal;
      assert p[1..][i - 1] == p[i];
    }
  }

  /** A loop takes a message: only it and the one buffer change. */
  lemma TakeDoes(s: State, w: nat)
    requires s.Shaped() && !s.panicked && w < |s.workers| && s.net.jobs[w].Loop? && s.workers[w].pc.Selecting?
    requires s.net.jobs[w].input < |s.channels| && s.channels[s.net.jobs[w].input].buffer != []
    ensures CanStep(s, Take(w))
    ensures var t, c := Next(s, Take(w)), s.net.jobs[w].input;
            && Untouched(s, t) && t.workers[w].pc.Processing? && t.channels[c].buffer == s.channels[c].buffer[1..]
            && (forall d :: 0 <= d < |s.channels| && d != c ==> t.channels[d] == s.channels[d])
            && forall v :: 0 <= v < |s.workers| && v != w ==> t.workers[v] == s.workers[v]
  {
    hide Fanned;
  }

  lemma SinkTakeDoes(s: State, c: nat)
    requires s.Shaped() && !s.panicked
    requires c < |s.channels| && s.net.kinds[c] == SinkChannel && s.channels[c].buffer != []
    ensures CanStep(s, SinkTake(c))
    ensures var t := Next(s, SinkTake(c));
            && Untouched(s, t) && t.workers == s.workers
            && forall d :: 0 <= d < |s.channels| && d != c ==> t.channels[d] == s.channels[d]
  {
  }

  /** A copy too many: on another channel, or a second one on the goal. */
  predicate Extra(s: State, goal: nat, c: nat)
    requires s.Shaped()
  {
    && c < |s.channels| && s.net.kinds[c] != SourceChannel && s.channels[c].buffer != []
    && (c == goal ==> |s.channels[c].buffer| > 1)
  }

  lemma ExtraGoes(net: Network, core: set<nat>, cf: Config, c: nat) returns (next: Config)
    requires Good(net, core, cf) && cf.mode.Resting? && Extra(cf.state, cf.goal, c)
    ensures Continues(net, core, cf, next)
  {
    hide CanStep, Next, Untouched, Waiting;
    var s := cf.state;
    WaitingIsShaped(net, s);
    if net.kinds[c] == SinkChannel {
      SinkTakeDoes(s, c);
      StaysWaiting(net, s, Next(s, SinkTake(c)));
      assert !FromSource(SinkTake(c));
      next := Config(Next(s, SinkTake(c)), Resting, cf.goal);
    } else {
      assert Drained(net, c);
      var w: nat :| w < |net.jobs| && net.jobs[w].Loop? && net.jobs[w].input == c;
      TakeDoes(s, w);
      StaysWaiting(net, s, Next(s, Take(w)));
      assert !FromSource(Take(w));
      next := Config(Next(s, Take(w)), Dropping(w), cf.goal);
    }
    WaitingIsShaped(net, next.state);
  }

  lemma SurvivorFeeds(net: Network, core: set<nat>, c: nat) returns (d: nat)
    requires c in Survivors(net, core)
    ensures d in core && Feeds(net, c, d)
  {
    hide Feeds;
    d :| d in core && Feeds(net, c, d);
  }

  lemma FeederOf(net: Network, c: nat, d: nat) returns (w: nat)
    requires Feeds(net, c, d)
    ensures w < |net.jobs| && net.jobs[w].input == c && Writes(net.jobs[w], d)
  {
    hide Writes;
    w :| 0 <= w < |net.jobs| && net.jobs[w].input == c && Writes(net.jobs[w], d);
  }

  lemma CoreFeeds(net: Network, core: set<nat>, c: nat) returns (w: nat, d: nat)
    requires Survivors(net, core) == core && c in core
    ensures d in core && w < |net.jobs| && net.jobs[w].input == c && Writes(net.jobs[w], d)
  {
    hide Survivors, Feeds, Writes;
    d := SurvivorFeeds(net, core, c);
    w := FeederOf(net, c, d);
  }

  /** What a job reads and writes, by kind. */
  lemma WriterFits(net: Network, w: nat, d: nat)
    requires net.WellFormed() && w < |net.jobs| && Writes(net.jobs[w], d)
    ensures d < |net.kinds| && net.kinds[d] != SourceChannel
    ensures net.jobs[w].input < |net.kinds| && net.kinds[net.jobs[w].input] != SinkChannel
    ensures net.kinds[net.jobs[w].input] == InputChannel ==> net.jobs[w].Loop?
  {
    assert net.JobFits(net.jobs[w]);
  }

  lemma LoopWrites(job: Job, d: nat) returns (t: string)
    requires job.Loop? && Writes(job, d)
    ensures t in job.outputs && d in job.outputs[t]
  {
    t :| t in job.outputs && d in job.outputs[t];
  }

  /** From a channel of the core a loop leads to another. */
  lemma CoreLeadsOn(net: Network, core: set<nat>, c: nat) returns (w: nat, t: string, d: nat)
    requires net.WellFormed() && Survivors(net, core) == core
    requires c in core && c < |net.kinds| && net.kinds[c] == InputChannel
    ensures w < |net.jobs| && net.jobs[w].Loop? && net.jobs[w].input == c && t in net.jobs[w].outputs
    ensures d in net.jobs[w].outputs[t] && d in core && d < |net.kinds| && net.kinds[d] == InputChannel
  {
    hide Survivors, Writes;
    w, d := CoreFeeds(net, core, c);
    WriterFits(net, w, d);
    t := LoopWrites(net.jobs[w], d);
    var v, e := CoreFeeds(net, core, d);
    WriterFits(net, v, e);
  }

  lemma LastGoes(net: Network, core: set<nat>, cf: Config) returns (next: Config)
    requires net.WellFormed() && Survivors(net, core) == core
    requires Good(net, core, cf) && cf.mode.Resting? && forall c: nat :: !Extra(cf.state, cf.goal, c)
    ensures Continues(net, core, cf, next)
  {
    hide CanStep, Next, Untouched, Waiting, Survivors;
    var s := cf.state;
    WaitingIsShaped(net, s);
    var w, t, d := CoreLeadsOn(net, core, cf.goal);
    TakeDoes(s, w);
    var after := Next(s, Take(w));
    StaysWaiting(net, s, after);
    WaitingIsShaped(net, after);
    assert !FromSource(Take(w));
    assert Empty(after) by {
      forall c | 0 <= c < |after.channels| && net.kinds[c] != SourceChannel ensures after.channels[c].buffer == [] {
        assert !Extra(s, cf.goal, c);
      }
    }
    next := Config(after, Carrying(w, t), d);
  }

  ghost predicate Feasible(net: Network, core: set<nat>) {
    net.WellFormed() && Survivors(net, core) == core && Roomy(net) && AllRead(net)
  }

  /** A good configuration can always go on. */
  lemma GoesOn(net: Network, core: set<nat>, cf: Config)
    requires Feasible(net, core) && Good(net, core, cf)
    ensures exists next :: Continues(net, core, cf, next)
  {
    hide Continues, Good, Survivors, Roomy, AllRead;
    var next: Config;
    if cf.mode.Dropping? {
      DropGoesOn(net, core, cf);
    } else if cf.mode.Carrying? {
      CarryGoesOn(net, core, cf);
    } else if cf.mode.Spreading? {
      next := SpreadGoesOn(net, core, cf);
    } else {
      GoodIsShaped(net, core, cf);
      if c: nat :| Extra(cf.state, cf.goal, c) {
        next := ExtraGoes(net, core, cf, c);
      } else {
        next := LastGoes(net, core, cf);
      }
    }
  }

  lemma GoodIsShaped(net: Network, core: set<nat>, cf: Config)
    requires Good(net, core, cf)
    ensures cf.state.Shaped()
  {
  }

  /** Stop waits for the loops, and one message is left on channel c. */
  function LeftOver(net: Network, c: nat): State {
    State(net,
          seq(|net.kinds|, d => if d == c then Channel([Item(None, Message("", ""))], [], [Message("", "")], false)
                                else Channel([], [], [], 0 <= d < |net.kinds| && net.kinds[d] == SourceChannel)),
          seq(|net.jobs|, _ => Worker(Selecting, [], [], [])), 0, true, WaitingMain, false)
  }

  lemma LeftOverHistories(net: Network, c: nat)
    requires net.WellFormed() && c < |net.kinds|
    ensures var s := LeftOver(net, c);
            s.Shaped() && forall d, w :: 0 <= d < |s.channels| && 0 <= w < |s.workers| ==> HistoriesAgree(s, d, w)
  {
    var items := [Item(None, Message("", ""))];
    forall w ensures Of(items, Some(w)) == [] {
      assert items[..0] == [];
    }
  }

  lemma LeftOverIsGood(net: Network, core: set<nat>, c: nat)
    requires net.WellFormed() && net.capacity > 0
    requires c in core && c < |net.kinds| && net.kinds[c] == InputChannel && Drained(net, c)
    ensures Inv(LeftOver(net, c)) && Draining(LeftOver(net, c)) && Good(net, core, Config(LeftOver(net, c), Resting, c))
  {
    hide HistoriesAgree;
    LeftOverHistories(net, c);
  }

  ghost function After(net: Network, core: set<nat>, cf: Config): (next: Config)
    requires Feasible(net, core) && Good(net, core, cf)
    ensures Continues(net, core, cf, next)
  {
    GoesOn(net, core, cf);
    var next :| Continues(net, core, cf, next);
    next
  }

  /** The configurations of a run that never ends. */
  ghost function GoingRound(net: Network, core: set<nat>, start: Config, i: nat): (cf: Config)
    requires Feasible(net, core) && Good(net, core, start)
    ensures Good(net, core, cf)
  {
    if i == 0 then start else After(net, core, GoingRound(net, core, start, i - 1))
  }

  lemma GoingRoundContinues(net: Network, core: set<nat>, start: Config, i: nat)
    requires Feasible(net, core) && Good(net, core, start)
    ensures QuietlyTo(GoingRound(net, core, start, i).state, GoingRound(net, core, start, i + 1).state)
  {
    hide Good, Feasible, QuietlyTo;
    var before := GoingRound(net, core, start, i);
    assert Continues(net, core, before, After(net, core, before));
  }

  /**
   With a cycle there is a draining run that never ends. It starts from a state that satisfies the invariant; whether a
   fresh start leads to one with a message on the cycle depends on the sources.
   */
  lemma CycleGoesRound(net: Network) returns (run: nat -> State)
    requires net.WellFormed() && Roomy(net) && AllRead(net) && !Acyclic(net)
    ensures Inv(run(0)) && Draining(run(0)) && run(0).net == net
    ensures forall i: nat :: QuietlyFollows(run, i) && Follows(run, i)
  {
    hide Good, Survivors, Roomy, AllRead, Inv, Draining, QuietlyTo, StepsTo, Acyclic, Core;
    var core := Core(net, Channels(net));
    if core == {} {
      EmptyCoreIsAcyclic(net);
    }
    var c := CoreHasInput(net, core);
    LeftOverIsGood(net, core, c);
    var start := Config(LeftOver(net, c), Resting, c);
    assert Feasible(net, core);
    run := (i: nat) => GoingRound(net, core, start, i).state;
    forall i: nat ensures QuietlyFollows(run, i) && Follows(run, i) {
      GoingRoundContinues(net, core, start, i);
      QuietIsStep(run, i);
    }
  }

  /** The core has an input channel, and some list is not empty. */
  lemma CoreHasInput(net: Network, core: set<nat>) returns (c: nat)
    requires net.WellFormed() && Survivors(net, core) == core && core != {} && Roomy(net)
    ensures c in core && c < |net.kinds| && net.kinds[c] == InputChannel && net.capacity > 0 && Drained(net, c)
  {
    hide Survivors, Writes;
    var b :| b in core;
    var u, d := CoreFeeds(net, core, b);
    WriterFits(net, u, d);
    var v, e := CoreFeeds(net, core, d);
    WriterFits(net, v, e);
    var t := LoopWrites(net.jobs[v], e);
    c := d;
  }

  // ---------- The exact condition ----------

  ghost predicate BreaksOff(run: nat -> State) {
    exists i: nat :: !Follows(run, i)
  }

  ghost predicate BreaksOffQuietly(run: nat -> State) {
    exists i: nat :: !QuietlyFollows(run, i)
  }

  /** Every run from a draining state ends, reachable from a fresh start or not. */
  ghost predicate DrainingEnds(net: Network) {
    forall run: nat -> State :: Inv(run(0)) && Draining(run(0)) && run(0).net == net ==> BreaksOff(run)
  }

  /** Every run without source sends ends, from whatever state that satisfies the invariant. */
  ghost predicate QuietEnds(net: Network) {
    forall run: nat -> State :: Inv(run(0)) && run(0).net == net ==> BreaksOffQuietly(run)
  }

  /**
   If every list fits into a channel and every listed channel is read, the network comes to rest from whatever state
   that satisfies the invariant exactly if it is acyclic: both in runs in which sources are silent, and in all runs once
   the source channels are closed.
   */
  lemma ShutdownEndsIff(net: Network)
    requires net.WellFormed() && Roomy(net) && AllRead(net)
    ensures QuietEnds(net) <==> Acyclic(net)
    ensures DrainingEnds(net) <==> Acyclic(net)
  {
    hide Inv, Draining, Roomy, AllRead, Ranked, Follows, QuietlyFollows;
    if Acyclic(net) {
      var rank, height :| Ranked(net, rank, height);
      forall run: nat -> State | Inv(run(0)) && run(0).net == net ensures BreaksOffQuietly(run) {
        ShutdownTerminates(run, rank, height);
      }
      forall run: nat -> State | Inv(run(0)) && Draining(run(0)) && run(0).net == net ensures BreaksOff(run) {
        DrainingTerminates(run, rank, height);
      }
    } else {
      var run := CycleGoesRound(net);
      assert !BreaksOffQuietly(run) && !BreaksOff(run);
    }
  }
}
