/**
 Shutdown of a DAG that was freshly started. Only what sources send can go round, so a cycle matters exactly if the
 connections lead to it from a source.
 */
module DagReach {
  import opened Wrappers
  import opened DagEngine
  import opened DagSafety
  import opened DagShutdown
  import opened DagCycle

  /** From some source the connections lead on without end: its channel is among those that feed each other. */
  ghost predicate SourceInCore(net: Network) {
    exists c :: c in Core(net, Channels(net)) && c < |net.kinds| && net.kinds[c] == SourceChannel
  }

  /** The state is reached from a fresh start. */
  ghost predicate Reached(net: Network, s: State) {
    exists start, steps :: Initial(start) && start.net == net && Possible(start, steps) && Run(start, steps) == s
  }

  // ---------- The core is the largest set whose channels all feed it ----------

  lemma {:induction false} LargestCore(net: Network, cs: set<nat>, r: set<nat>)
    requires r <= cs && r <= Survivors(net, r)
    ensures r <= Core(net, cs)
    decreases cs
  {
    hide Feeds;
    assert r <= Survivors(net, cs);
    if Survivors(net, cs) != cs {
      LargestCore(net, Survivors(net, cs), r);
    }
  }

  lemma FeederIsInCore(net: Network, cs: set<nat>, c: nat, d: nat)
    requires c in cs && Feeds(net, c, d) && d in Core(net, cs)
    ensures c in Core(net, cs)
  {
    hide Feeds, Core, Survivors;
    var core := Core(net, cs);
    var more := core + {c};
    forall x | x in more ensures x in Survivors(net, more) {
      var y := d;
      if x in core {
        y := SurvivorFeeds(net, core, x);
      }
      FeederSurvives(net, more, x, y);
    }
    LargestCore(net, cs, more);
  }

  /** The connections lead on without end from some source. */
  ghost predicate SourceLeadsOn(net: Network) {
    exists walk: nat -> nat :: IsWalk(net, walk) && net.kinds[walk(0)] == SourceChannel
  }

  ghost predicate IsWalk(net: Network, walk: nat -> nat) {
    forall i: nat :: walk(i) < |net.kinds| && Feeds(net, walk(i), walk(i + 1))
  }

  ghost function WalkOn(net: Network, core: set<nat>, c: nat, i: nat): (d: nat)
    requires Survivors(net, core) == core && c in core
    ensures d in core
  {
    if i == 0 then c
    else
      var before := WalkOn(net, core, c, i - 1);
      assert before in Survivors(net, core);
      var d :| d in core && Feeds(net, before, d);
      d
  }

  lemma WalkOnFeeds(net: Network, core: set<nat>, c: nat, i: nat)
    requires Survivors(net, core) == core && c in core
    ensures Feeds(net, WalkOn(net, core, c, i), WalkOn(net, core, c, i + 1))
  {
    hide Feeds, Survivors;
  }

  /** What is left after taking away dead ends holds a source exactly if from some source there is an endless walk. */
  lemma SourceInCoreIff(net: Network)
    ensures SourceInCore(net) <==> SourceLeadsOn(net)
  {
    hide Core, Feeds, Survivors;
    var all := Channels(net);
    var core := Core(net, all);
    if SourceInCore(net) {
      var c :| c in core && c < |net.kinds| && net.kinds[c] == SourceChannel;
      var walk: nat -> nat := (i: nat) => WalkOn(net, core, c, i);
      forall i: nat ensures walk(i) < |net.kinds| && Feeds(net, walk(i), walk(i + 1)) {
        WalkOnFeeds(net, core, c, i);
      }
      assert IsWalk(net, walk) && walk(0) == c;
    }
    if SourceLeadsOn(net) {
      var walk: nat -> nat :| IsWalk(net, walk) && net.kinds[walk(0)] == SourceChannel;
      WalkIsInCore(net, walk);
    }
  }

  lemma WalkIsInCore(net: Network, walk: nat -> nat)
    requires IsWalk(net, walk)
    ensures walk(0) in Core(net, Channels(net))
  {
    hide Core, Feeds, Survivors;
    var r := set c | c in Channels(net) && exists i: nat :: walk(i) == c;
    forall c | c in r ensures c in Survivors(net, r) {
      var i: nat :| walk(i) == c;
      assert walk(i + 1) in r;
      FeederSurvives(net, r, c, walk(i + 1));
    }
    LargestCore(net, Channels(net), r);
    assert walk(0) in r;
  }

  /** No goroutine outside the core writes into it. */
  predicate Shut(net: Network, core: set<nat>) {
    forall w, d :: 0 <= w < |net.jobs| && net.jobs[w].input !in core && Writes(net.jobs[w], d) ==> d !in core
  }

  lemma CoreIsShut(net: Network)
    requires net.WellFormed()
    ensures Shut(net, Core(net, Channels(net)))
  {
    hide Core, Writes;
    var core := Core(net, Channels(net));
    forall w, d | 0 <= w < |net.jobs| && net.jobs[w].input !in core && Writes(net.jobs[w], d) ensures d !in core {
      assert net.JobFits(net.jobs[w]) && Feeds(net, net.jobs[w].input, d);
      if d in core {
        FeederIsInCore(net, Channels(net), net.jobs[w].input, d);
      }
    }
  }

  // ---------- The network without what the core passes on ----------

  function PrunedJob(job: Job, core: set<nat>): Job {
    if job.input !in core then job
    else
      match job
      case Adapter(c, t, _) => Adapter(c, t, None)
      case Loop(c, _) => Loop(c, map[])
  }

  function Pruned(net: Network, core: set<nat>): Network {
    net.(jobs := seq(|net.jobs|, w requires 0 <= w < |net.jobs| => PrunedJob(net.jobs[w], core)))
  }

  lemma PrunedFits(net: Network, core: set<nat>)
    requires net.WellFormed()
    ensures Pruned(net, core).WellFormed()
  {
    forall w | 0 <= w < |net.jobs| ensures Pruned(net, core).JobFits(PrunedJob(net.jobs[w], core)) {
      assert net.JobFits(net.jobs[w]);
    }
  }

  lemma PrunedFeeds(net: Network, core: set<nat>, c: nat, d: nat)
    requires Feeds(Pruned(net, core), c, d)
    ensures c !in core && Feeds(net, c, d)
  {
    hide Writes;
    var w := FeederOf(Pruned(net, core), c, d);
    if c in core {
      PrunedWritesNothing(net.jobs[w], core, d);
    }
  }

  lemma PrunedWritesNothing(job: Job, core: set<nat>, d: nat)
    requires job.input in core
    ensures !Writes(PrunedJob(job, core), d)
  {
  }

  /** Without what the core passes on, the channels can be ranked. */
  lemma PrunedIsAcyclic(net: Network)
    requires net.WellFormed()
    ensures Acyclic(Pruned(net, Core(net, Channels(net))))
  {
    hide Core, Feeds, Pruned, Acyclic;
    var core := Core(net, Channels(net));
    var pruned := Pruned(net, core);
    PrunedFits(net, core);
    PrunedKeepsChannels(net, core);
    var r := Core(pruned, Channels(net));
    forall c | c in r ensures c in Survivors(net, r) && c !in core {
      var d := SurvivorFeeds(pruned, r, c);
      PrunedFeeds(net, core, c, d);
    }
    LargestCore(net, Channels(net), r);
    assert r == {};
    EmptyCoreIsAcyclic(pruned);
  }

  lemma PrunedKeepsChannels(net: Network, core: set<nat>)
    ensures Channels(Pruned(net, core)) == Channels(net)
  {
  }

  // ---------- Nothing moves in the core, so the rest runs as in the pruned network ----------

  /** No source sends into the core, and nothing has got into it. */
  predicate Unfed(s: State, core: set<nat>) {
    && s.Shaped() && Shut(s.net, core)
    && (forall c :: c in core && c < |s.channels| ==> s.net.kinds[c] != SourceChannel && s.channels[c].buffer == [])
    && forall w :: 0 <= w < |s.workers| ==> Apart(s.net.jobs[w], s.workers[w].pc, core)
  }

  /** A goroutine at the core waits or has left; the others have nothing in hand for the core. */
  predicate Apart(job: Job, pc: Pc, core: set<nat>) {
    && (job.input in core ==> pc.Selecting? || pc.Exited?)
    && (pc.Sending? ==> forall i :: 0 <= i < |pc.pending| ==> pc.pending[i].channel !in core)
  }

  function Prune(s: State, core: set<nat>): State {
    s.(net := Pruned(s.net, core))
  }

  lemma {:induction false} FannedIsWritten(job: Job, outputs: seq<Message>)
    ensures forall i :: 0 <= i < |Fanned(job, outputs)| ==> Writes(job, Fanned(job, outputs)[i].channel)
    decreases |outputs|
  {
    hide ToAll;
    if outputs != [] {
      var m := outputs[|outputs| - 1];
      FannedIsWritten(job, outputs[..|outputs| - 1]);
      ToAllIs(Listed(job, m), m);
      forall k | 0 <= k < |Listed(job, m)| ensures Writes(job, Listed(job, m)[k]) {
        if job.Loop? {
          assert m.eventType in job.outputs && Listed(job, m)[k] in job.outputs[m.eventType];
        }
      }
    }
  }

  /** A goroutine outside the core that finishes a message has nothing for the core. */
  lemma FinishStaysApart(net: Network, core: set<nat>, w: nat, worker: Worker, result: Option<seq<Message>>)
    requires Shut(net, core) && w < |net.jobs| && net.jobs[w].input !in core
    ensures Apart(net.jobs[w], Finish(net.jobs[w], worker, result).pc, core)
  {
    hide Fanned, Writes;
    if result.Some? {
      FannedIsWritten(net.jobs[w], result.value);
    }
  }

  lemma TakingStaysApart(net: Network, core: set<nat>, w: nat, worker: Worker, m: Message)
    requires Shut(net, core) && w < |net.jobs| && net.jobs[w].input !in core
    ensures Apart(net.jobs[w], Taking(net.jobs[w], worker, m).pc, core)
  {
    hide Fanned, Writes, Shut, Finish;
    var job := net.jobs[w];
    if job.Adapter? {
      var taking := worker.(taken := worker.taken + [m], pc := Processing(m));
      FinishStaysApart(net, core, w, taking, Some([Adapted(job, m)]));
    }
  }

  lemma PrunedStepIsPossible(s: State, step: Step, core: set<nat>)
    requires Unfed(s, core) && CanStep(s, step)
    ensures CanStep(Prune(s, core), step)
  {
    hide Writes, Shut;
    PrunedFits(s.net, core);
    if step.StopStep? {
      assert AllExited(s, true) ==> AllExited(Prune(s, core), true);
      assert AllExited(s, false) ==> AllExited(Prune(s, core), false);
    }
  }

  /** Who acts in a step, and on what, is outside the core. */
  lemma ActorIsApart(s: State, step: Step, core: set<nat>)
    requires Unfed(s, core) && CanStep(s, step)
    ensures step.Take? || step.Processed? || step.Send? || step.HandToSink? ==> s.net.jobs[step.worker].input !in core
    ensures step.HandToWorker? ==> step.channel !in core && s.net.jobs[step.worker].input !in core
    ensures step.SourceSend? ==> step.channel !in core
    ensures step.Send? || step.HandToSink? ==> Pending(s, step.worker).channel !in core
  {
    hide Writes, Shut;
    if step.Take? {
      assert s.net.JobFits(s.net.jobs[step.worker]);
    }
  }

  lemma WorkerStaysApart(s: State, step: Step, core: set<nat>, w: nat)
    requires Unfed(s, core) && CanStep(s, step) && w < |s.workers|
    ensures Apart(s.net.jobs[w], WorkerAfter(s, step, w).pc, core)
    ensures CanStep(Prune(s, core), step) && WorkerAfter(Prune(s, core), step, w) == WorkerAfter(s, step, w)
  {
    hide Fanned, Writes, Shut, Finish, Taking;
    PrunedStepIsPossible(s, step, core);
    ActorIsApart(s, step, core);
    var job, worker := s.net.jobs[w], s.workers[w];
    match step {
      case Take(v) => if v == w { TakingStaysApart(s.net, core, w, worker, s.channels[job.input].buffer[0]); }
      case Processed(v, r) => if v == w { FinishStaysApart(s.net, core, w, worker, r); }
      case HandToWorker(_, _, m, v) => if v == w { TakingStaysApart(s.net, core, w, worker, m); }
      case _ =>
    }
  }

  lemma ChannelStaysApart(s: State, step: Step, core: set<nat>, c: nat)
    requires Unfed(s, core) && CanStep(s, step) && c < |s.channels|
    ensures c in core ==> ChannelAfter(s, step, c).buffer == []
    ensures CanStep(Prune(s, core), step) && ChannelAfter(Prune(s, core), step, c) == ChannelAfter(s, step, c)
  {
    hide Fanned, Writes, Shut;
    PrunedStepIsPossible(s, step, core);
    ActorIsApart(s, step, core);
  }

  lemma PrunedKeepsTheRest(s: State, step: Step, core: set<nat>)
    requires CanStep(s, step) && CanStep(Prune(s, core), step)
    ensures s.Shaped() && Prune(s, core).Shaped()
    ensures Panics(Prune(s, core), step) == Panics(s, step)
    ensures step.StopStep? ==> StopperAfter(Prune(s, core)) == StopperAfter(s)
  {
  }

  lemma PrunedStepAgrees(s: State, step: Step, core: set<nat>)
    requires Unfed(s, core) && CanStep(s, step)
    ensures Unfed(Next(s, step), core)
    ensures CanStep(Prune(s, core), step) && Next(Prune(s, core), step) == Prune(Next(s, step), core)
  {
    hide Shut, Apart, ChannelAfter, WorkerAfter, CanStep, StopperAfter, Pruned, Panics;
    PrunedStepIsPossible(s, step, core);
    PrunedKeepsTheRest(s, step, core);
    forall w | 0 <= w < |s.workers|
      ensures Apart(s.net.jobs[w], WorkerAfter(s, step, w).pc, core)
      ensures WorkerAfter(Prune(s, core), step, w) == WorkerAfter(s, step, w)
    {
      WorkerStaysApart(s, step, core, w);
    }
    forall c | 0 <= c < |s.channels|
      ensures c in core ==> ChannelAfter(s, step, c).buffer == []
      ensures ChannelAfter(Prune(s, core), step, c) == ChannelAfter(s, step, c)
    {
      ChannelStaysApart(s, step, core, c);
    }
    assert ChannelsAfter(Prune(s, core), step) == ChannelsAfter(s, step);
    assert WorkersAfter(Prune(s, core), step) == WorkersAfter(s, step);
  }

  /** From the start no source reaches the core, and nothing ever gets into it. */
  lemma StartIsUnfed(s: State, core: set<nat>)
    requires Initial(s) && Shut(s.net, core)
    requires forall c :: c in core && c < |s.net.kinds| ==> s.net.kinds[c] != SourceChannel
    ensures Unfed(s, core) && Inv(Prune(s, core))
  {
    hide Shut, Inv;
    PrunedFits(s.net, core);
    InitialInv(Prune(s, core));
  }

  lemma {:induction false} RunIsUnfed(s: State, steps: seq<Step>, core: set<nat>)
    requires Unfed(s, core) && Inv(Prune(s, core)) && Possible(s, steps)
    ensures Unfed(Run(s, steps), core) && Inv(Prune(Run(s, steps), core)) && Run(s, steps).net == s.net
    decreases |steps|
  {
    hide Unfed, Inv, Prune, CanStep, Next;
    if steps != [] {
      PrunedStepAgrees(s, steps[0], core);
      StepKeepsInv(Prune(s, core), steps[0]);
      NetStays(s, steps[0]);
      RunIsUnfed(Next(s, steps[0]), steps[1..], core);
    }
  }

  lemma ReachedIsUnfed(net: Network, s: State)
    requires net.WellFormed() && !SourceInCore(net) && Reached(net, s)
    ensures var core := Core(net, Channels(net));
            Unfed(s, core) && Inv(Prune(s, core)) && s.net == net
  {
    hide Unfed, Inv, Prune, Initial, Possible, Run, Core;
    var core := Core(net, Channels(net));
    var start, steps :| Initial(start) && start.net == net && Possible(start, steps) && Run(start, steps) == s;
    CoreIsShut(net);
    StartIsUnfed(start, core);
    RunIsUnfed(start, steps, core);
  }

  /** A step that is not a source's is such a step of the pruned network. */
  lemma PrunedFollowsQuietly(s: State, t: State, core: set<nat>)
    requires Unfed(s, core) && QuietlyTo(s, t)
    ensures Unfed(t, core) && QuietlyTo(Prune(s, core), Prune(t, core))
  {
    hide Unfed, Prune, CanStep, Next;
    var step :| CanStep(s, step) && !FromSource(step) && t == Next(s, step);
    PrunedStepAgrees(s, step, core);
  }

  lemma PrunedFollows(s: State, t: State, core: set<nat>)
    requires Unfed(s, core) && StepsTo(s, t)
    ensures Unfed(t, core) && StepsTo(Prune(s, core), Prune(t, core))
  {
    hide Unfed, Prune, CanStep, Next;
    var step :| CanStep(s, step) && t == Next(s, step);
    PrunedStepAgrees(s, step, core);
  }

  lemma {:induction false} StaysUnfed(run: nat -> State, core: set<nat>, i: nat)
    requires Unfed(run(0), core) && forall j: nat :: Follows(run, j)
    ensures Unfed(run(i), core)
  {
    hide Unfed, StepsTo;
    if i > 0 {
      StaysUnfed(run, core, i - 1);
      assert Follows(run, i - 1);
      PrunedFollows(run(i - 1), run(i), core);
    }
  }

  /** Where no source leads into a cycle, runs from a fresh start end: while sources are silent, and after Stop. */
  lemma UnfedRunEnds(net: Network, run: nat -> State)
    requires net.WellFormed() && !SourceInCore(net) && Reached(net, run(0))
    ensures BreaksOffQuietly(run)
    ensures Draining(run(0)) ==> BreaksOff(run)
  {
    hide SourceInCore, Reached, Unfed, Inv, Prune, Pruned, Ranked, QuietlyTo, StepsTo, Core;
    var core := Core(net, Channels(net));
    ReachedIsUnfed(net, run(0));
    PrunedIsAcyclic(net);
    var rank, height :| Ranked(Pruned(net, core), rank, height);
    var pruned: nat -> State := (i: nat) => Prune(run(i), core);
    PruneSets(run(0), core);
    if !BreaksOffQuietly(run) {
      forall i: nat ensures QuietlyFollows(pruned, i) {
        forall j: nat ensures Follows(run, j) {
          assert QuietlyFollows(run, j);
          QuietIsStep(run, j);
        }
        StaysUnfed(run, core, i);
        assert QuietlyFollows(run, i);
        PrunedFollowsQuietly(run(i), run(i + 1), core);
      }
      ShutdownTerminates(pruned, rank, height);
    }
    if Draining(run(0)) && !BreaksOff(run) {
      forall i: nat ensures Follows(pruned, i) {
        StaysUnfed(run, core, i);
        assert Follows(run, i);
        PrunedFollows(run(i), run(i + 1), core);
      }
      DrainingTerminates(pruned, rank, height);
    }
  }

  lemma PruneSets(s: State, core: set<nat>)
    ensures Prune(s, core).net == Pruned(s.net, core) && Prune(s, core).stopper == s.stopper
  {
  }

  // ---------- A message that gets from a source into a cycle ----------

  lemma RunCons(s: State, step: Step, rest: seq<Step>)
    requires CanStep(s, step) && Possible(Next(s, step), rest)
    ensures Possible(s, [step] + rest) && Run(s, [step] + rest) == Run(Next(s, step), rest)
  {
    hide CanStep, Next;
    assert ([step] + rest)[1..] == rest;
  }

  /** Just started, with one source. */
  function Fresh(net: Network): State {
    State(net, seq(|net.kinds|, _ => Channel([], [], [], false)), seq(|net.jobs|, _ => Worker(Selecting, [], [], [])),
          1, false, Running, false)
  }

  /** Nothing has been stopped yet; only goroutine `busy`, if it is one, does not wait for input. */
  predicate Untroubled(net: Network, s: State, busy: nat) {
    && s.Shaped() && s.net == net && !s.panicked && s.stopper.Running?
    && (forall c :: 0 <= c < |s.channels| ==> !s.channels[c].closed)
    && forall w :: 0 <= w < |s.workers| && w != busy ==> s.workers[w].pc.Selecting?
  }

  /** Nothing is buffered but at sources and on channel d. */
  predicate EmptyBut(s: State, d: nat)
    requires s.Shaped()
  {
    forall c :: 0 <= c < |s.channels| && c != d && s.net.kinds[c] != SourceChannel ==> s.channels[c].buffer == []
  }

  /** Goroutine w adapts source channel c for channel d. */
  predicate Adapts(net: Network, w: nat, c: nat, d: nat) {
    && w < |net.jobs| && net.jobs[w].Adapter? && net.jobs[w].input == c && net.jobs[w].target == Some(d)
    && c < |net.kinds| && net.kinds[c] == SourceChannel && d < |net.kinds| && net.kinds[d] == InputChannel
  }

  lemma SourceFeeds(net: Network, w: nat, c: nat, d: nat)
    requires net.WellFormed() && net.capacity > 0 && Adapts(net, w, c, d)
    ensures Initial(Fresh(net)) && CanStep(Fresh(net), SourceSend(c, Message("", "")))
    ensures var s := Next(Fresh(net), SourceSend(c, Message("", "")));
            Untroubled(net, s, |net.jobs|) && EmptyBut(s, d) && s.live == 1 && Holds(s, c) && s.channels[d].buffer == []
  {
  }

  lemma AdapterFans(job: Job, m: Message)
    requires job.Adapter? && job.target.Some?
    ensures Fanned(job, [m]) == [Delivery(job.target.value, m)]
  {
    var d := job.target.value;
    assert [m][..0] == [] && [d][..0] == [];
    assert Fanned(job, []) == [] && ToAll([], m) == [];
    assert ToAll([d], m) == [] + [Delivery(d, m)];
    assert Fanned(job, [m]) == [] + ToAll([d], m);
  }

  lemma AdapterTakes(net: Network, s: State, w: nat, c: nat, d: nat)
    requires Adapts(net, w, c, d) && Untroubled(net, s, |net.jobs|) && EmptyBut(s, d) && s.live == 1
    requires Holds(s, c) && s.channels[d].buffer == []
    ensures CanStep(s, Take(w))
    ensures var t := Next(s, Take(w));
            && Untroubled(net, t, w) && EmptyBut(t, d) && t.live == 1 && t.channels[d].buffer == []
            && t.workers[w].pc.Sending? && |t.workers[w].pc.pending| == 1 && t.workers[w].pc.pending[0].channel == d
  {
    hide Fanned;
    AdapterFans(net.jobs[w], Adapted(net.jobs[w], s.channels[c].buffer[0]));
  }

  lemma AdapterSends(net: Network, s: State, w: nat, d: nat)
    requires net.capacity > 0 && Untroubled(net, s, w) && EmptyBut(s, d) && s.live == 1
    requires d < |s.channels| && s.channels[d].buffer == [] && w < |s.workers|
    requires s.workers[w].pc.Sending? && |s.workers[w].pc.pending| == 1 && s.workers[w].pc.pending[0].channel == d
    ensures CanStep(s, Send(w))
    ensures var t := Next(s, Send(w));
            Untroubled(net, t, |net.jobs|) && EmptyBut(t, d) && t.live == 1 && Holds(t, d)
  {
    hide Fanned;
    SendDoes(s, w);
    assert s.workers[w].pc.pending[1..] == [];
  }

  /** The source has returned, every goroutine waits, one message is left on channel d, and Stop has come this far. */
  predicate Halting(net: Network, s: State, d: nat) {
    && s.Shaped() && s.net == net && !s.panicked && s.live == 0
    && (s.stopper.Running? || (s.stopper.ClosingSources? && s.stopper.next <= |s.channels|) || s.stopper.WaitingMain?)
    && (forall c :: 0 <= c < |s.channels| && net.kinds[c] != SourceChannel ==> !s.channels[c].closed)
    && (forall w :: 0 <= w < |s.workers| ==> s.workers[w].pc.Selecting?)
    && Holds(s, d) && EmptyBut(s, d)
  }

  lemma SourceReturnsAtLast(net: Network, s: State, d: nat)
    requires Untroubled(net, s, |net.jobs|) && EmptyBut(s, d) && s.live == 1 && Holds(s, d)
    ensures CanStep(s, SourceReturns) && Halting(net, Next(s, SourceReturns), d)
  {
  }

  lemma StopGoesOn(net: Network, s: State, d: nat)
    requires Halting(net, s, d) && !s.stopper.WaitingMain?
    ensures CanStep(s, StopStep) && Halting(net, Next(s, StopStep), d)
    ensures StopLeft(Next(s, StopStep)) < StopLeft(s)
  {
  }

  function StopLeft(s: State): nat {
    match s.stopper
    case Running => |s.channels| + 2
    case ClosingSources(n) => if n <= |s.channels| then |s.channels| - n + 1 else 0
    case _ => 0
  }

  lemma {:induction false} StopComesToWait(net: Network, s: State, d: nat) returns (steps: seq<Step>)
    requires Halting(net, s, d)
    ensures Possible(s, steps) && Halting(net, Run(s, steps), d) && Run(s, steps).stopper.WaitingMain?
    decreases StopLeft(s)
  {
    hide Halting, CanStep, Next, StopLeft;
    if s.stopper.WaitingMain? {
      steps := [];
    } else {
      StopGoesOn(net, s, d);
      var rest := StopComesToWait(net, Next(s, StopStep), d);
      RunCons(s, StopStep, rest);
      steps := [StopStep] + rest;
    }
  }

  /** From a fresh start a source's message comes to channel d, and Stop to its wait. */
  lemma MessageArrives(net: Network, w: nat, c: nat, d: nat) returns (steps: seq<Step>)
    requires net.WellFormed() && net.capacity > 0 && Adapts(net, w, c, d)
    ensures Initial(Fresh(net)) && Possible(Fresh(net), steps)
    ensures Halting(net, Run(Fresh(net), steps), d) && Run(Fresh(net), steps).stopper.WaitingMain?
  {
    hide Halting, CanStep, Next, Initial, Possible, Run;
    SourceFeeds(net, w, c, d);
    var s1 := Next(Fresh(net), SourceSend(c, Message("", "")));
    AdapterTakes(net, s1, w, c, d);
    var s2 := Next(s1, Take(w));
    AdapterSends(net, s2, w, d);
    var s3 := Next(s2, Send(w));
    SourceReturnsAtLast(net, s3, d);
    steps := StopComesToWait(net, Next(s3, SourceReturns), d);
    RunCons(s3, SourceReturns, steps);
    steps := [SourceReturns] + steps;
    RunCons(s2, Send(w), steps);
    steps := [Send(w)] + steps;
    RunCons(s1, Take(w), steps);
    steps := [Take(w)] + steps;
    RunCons(Fresh(net), SourceSend(c, Message("", "")), steps);
    steps := [SourceSend(c, Message("", ""))] + steps;
  }

  /** A source in the core is adapted for an input channel of the core, which a loop reads. */
  lemma SourceLeadsIn(net: Network) returns (w: nat, c: nat, d: nat)
    requires net.WellFormed() && Roomy(net) && SourceInCore(net)
    ensures Adapts(net, w, c, d) && d in Core(net, Channels(net)) && Drained(net, d) && net.capacity > 0
  {
    hide Core, Writes, Survivors;
    var core := Core(net, Channels(net));
    c :| c in core && c < |net.kinds| && net.kinds[c] == SourceChannel;
    w, d := CoreFeeds(net, core, c);
    AdapterWrites(net, w, d);
    var v, t, e := CoreLeadsOn(net, core, d);
    assert Reader(net, d);
  }

  lemma AdapterWrites(net: Network, w: nat, d: nat)
    requires net.WellFormed() && w < |net.jobs| && Writes(net.jobs[w], d)
    requires net.jobs[w].input < |net.kinds| && net.kinds[net.jobs[w].input] == SourceChannel
    ensures Adapts(net, w, net.jobs[w].input, d)
  {
    assert net.JobFits(net.jobs[w]);
  }

  lemma HaltedIsGood(net: Network, core: set<nat>, s: State, d: nat)
    requires Halting(net, s, d) && s.stopper.WaitingMain?
    requires d in core && d < |net.kinds| && net.kinds[d] == InputChannel && Drained(net, d)
    ensures Good(net, core, Config(s, Resting, d)) && Draining(s)
  {
  }

  /** Where a source leads into a cycle, some run from a fresh start never ends after Stop has closed the sources. */
  lemma FedGoesRound(net: Network) returns (run: nat -> State)
    requires net.WellFormed() && Roomy(net) && AllRead(net) && SourceInCore(net)
    ensures Reached(net, run(0)) && Draining(run(0))
    ensures forall i: nat :: QuietlyFollows(run, i) && Follows(run, i)
  {
    hide Good, Survivors, Roomy, AllRead, Halting, Drained, Draining, QuietlyTo, StepsTo, Core, SourceInCore, Initial;
    var core := Core(net, Channels(net));
    var w, c, d := SourceLeadsIn(net);
    var steps := MessageArrives(net, w, c, d);
    var s := Run(Fresh(net), steps);
    HaltedIsGood(net, core, s, d);
    var start := Config(s, Resting, d);
    assert Feasible(net, core);
    run := (i: nat) => GoingRound(net, core, start, i).state;
    forall i: nat ensures QuietlyFollows(run, i) && Follows(run, i) {
      GoingRoundContinues(net, core, start, i);
      QuietIsStep(run, i);
    }
  }

  // ---------- The exact condition ----------

  /** From a fresh start, no run goes on for ever with its sources silent from some point on. */
  ghost predicate QuietRunsEnd(net: Network) {
    forall run: nat -> State :: Reached(net, run(0)) ==> BreaksOffQuietly(run)
  }

  /** From a fresh start, no run goes on for ever once Stop has closed the source channels. */
  ghost predicate StoppedRunsEnd(net: Network) {
    forall run: nat -> State :: Reached(net, run(0)) && Draining(run(0)) ==> BreaksOff(run)
  }

  /**
   If every list fits into a channel and every listed channel is read, then of a DAG freshly started every run comes
   to rest, after Stop or with silent sources, exactly if from no source the connections lead on without end.
   */
  lemma StartedDagEndsIff(net: Network)
    requires net.WellFormed() && Roomy(net) && AllRead(net)
    ensures StoppedRunsEnd(net) <==> !SourceInCore(net)
    ensures QuietRunsEnd(net) <==> !SourceInCore(net)
  {
    hide Reached, Draining, Roomy, AllRead, Follows, QuietlyFollows, SourceInCore, BreaksOff, BreaksOffQuietly;
    if SourceInCore(net) {
      var run := FedGoesRound(net);
      EndlessDoesNotBreakOff(run);
    } else {
      forall run: nat -> State | Reached(net, run(0))
        ensures BreaksOffQuietly(run) && (Draining(run(0)) ==> BreaksOff(run))
      {
        UnfedRunEnds(net, run);
      }
    }
  }

  lemma EndlessDoesNotBreakOff(run: nat -> State)
    requires forall i: nat :: QuietlyFollows(run, i) && Follows(run, i)
    ensures !BreaksOff(run) && !BreaksOffQuietly(run)
  {
  }
}
