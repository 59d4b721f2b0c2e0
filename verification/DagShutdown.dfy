/**
 An acyclic DAG runs down once its sources are silent: every step but a source's lowers a lexicographic measure over
 the ranks of the channels, and until a cancelled DAG has stopped some step can be taken.
 */
module DagShutdown {
  import opened Wrappers
  import opened DagEngine
  import opened DagSafety
  import Lexicographic

  /** Ranks below `height` that grow along every loop and adapter: the network has no cycle. */
  predicate Ranked(net: Network, rank: seq<nat>, height: nat) {
    && net.WellFormed() && |rank| == |net.kinds|
    && (forall c :: 0 <= c < |rank| ==> rank[c] < height)
    && forall w :: 0 <= w < |net.jobs| ==> Upward(net.jobs[w], rank)
  }

  predicate Upward(job: Job, rank: seq<nat>) {
    && job.input < |rank|
    && match job
       case Adapter(c, _, target) => target.Some? ==> target.value < |rank| && rank[c] < rank[target.value]
       case Loop(c, outputs) =>
         forall t, k :: t in outputs && 0 <= k < |outputs[t]| ==>
           outputs[t][k] < |rank| && rank[c] < rank[outputs[t][k]]
  }

  /** Stop has cancelled and gone past closing the sources. */
  predicate Draining(s: State) {
    s.stopper.WaitingMain? || s.stopper.WaitingLoops? || s.stopper.ClosingSinks? || s.stopper.Stopped?
  }

  // ---------- The measure ----------

  function Sum(v: seq<nat>): nat {
    if v == [] then 0 else Sum(v[..|v| - 1]) + v[|v| - 1]
  }

  lemma {:induction false} SumUpdate(v: seq<nat>, i: nat, x: nat)
    requires i < |v|
    ensures Sum(v[i := x]) + v[i] == Sum(v) + x
  {
    var n := |v| - 1;
    if i == n {
      assert v[i := x][..n] == v[..n];
    } else {
      assert v[i := x][..n] == v[..n][i := x];
      SumUpdate(v[..n], i, x);
    }
  }

  /** Steps the stopping goroutine still has to take. */
  function StopperLeft(st: Stopper, n: nat): nat {
    match st
    case Running => 2 * n + 6
    case ClosingSources(i) => (if i <= n then n - i else 0) + n + 5
    case WaitingMain => n + 4
    case WaitingLoops => n + 3
    case ClosingSinks(i) => (if i <= n then n - i else 0) + 1
    case Stopped => 0
  }

  function Alive(w: Worker): nat {
    if w.pc.Exited? then 0 else 1
  }

  /** A buffered message of rank r on a channel that a goroutine reads. */
  function BufferWeight(kind: Kind, ch: Channel, rank: nat, r: nat): nat {
    if kind != SinkChannel && rank == r then 2 * |ch.buffer| else 0
  }

  /** A message of rank r being processed. */
  function ProcessingWeight(w: Worker, rank: nat, r: nat): nat {
    if rank == r && w.pc.Processing? then 1 else 0
  }

  /** The sends a goroutine of rank r still has in hand. */
  function PendingWeight(w: Worker, rank: nat, r: nat): nat {
    if rank == r && w.pc.Sending? then |w.pc.pending| else 0
  }

  function SinkWeight(kind: Kind, ch: Channel): nat {
    if kind == SinkChannel then |ch.buffer| else 0
  }

  function AliveVector(s: State): seq<nat>
  {
    seq(|s.workers|, w requires 0 <= w < |s.workers| => Alive(s.workers[w]))
  }

  function BufferVector(s: State, rank: seq<nat>, r: nat): seq<nat>
    requires |s.net.kinds| == |s.channels| == |rank|
  {
    seq(|s.channels|, c requires 0 <= c < |s.channels| => BufferWeight(s.net.kinds[c], s.channels[c], rank[c], r))
  }

  function SinkVector(s: State): seq<nat>
    requires |s.net.kinds| == |s.channels|
  {
    seq(|s.channels|, c requires 0 <= c < |s.channels| => SinkWeight(s.net.kinds[c], s.channels[c]))
  }

  /** The rank of the channel a worker reads. */
  function RankOf(s: State, rank: seq<nat>, w: nat): nat
    requires w < |s.net.jobs|
  {
    if s.net.jobs[w].input < |rank| then rank[s.net.jobs[w].input] else 0
  }

  function ProcessingVector(s: State, rank: seq<nat>, r: nat): seq<nat>
    requires |s.net.jobs| == |s.workers|
  {
    seq(|s.workers|, w requires 0 <= w < |s.workers| => ProcessingWeight(s.workers[w], RankOf(s, rank, w), r))
  }

  function PendingVector(s: State, rank: seq<nat>, r: nat): seq<nat>
    requires |s.net.jobs| == |s.workers|
  {
    seq(|s.workers|, w requires 0 <= w < |s.workers| => PendingWeight(s.workers[w], RankOf(s, rank, w), r))
  }

  /** Position 0: goroutines and steps of Stop still to go. Then two positions per rank. Last: what sinks still hold. */
  function Component(s: State, rank: seq<nat>, height: nat, i: nat): nat
    requires s.Shaped() && |rank| == |s.net.kinds| && i < 2 * height + 2
  {
    if i == 0 then Sum(AliveVector(s)) + s.live + StopperLeft(s.stopper, |s.channels|)
    else if i == 2 * height + 1 then Sum(SinkVector(s))
    else if i % 2 == 1 then Sum(BufferVector(s, rank, i / 2)) + Sum(ProcessingVector(s, rank, i / 2))
    else Sum(PendingVector(s, rank, i / 2 - 1))
  }

  function Measure(s: State, rank: seq<nat>, height: nat): (m: seq<nat>)
    requires s.Shaped() && |rank| == |s.net.kinds|
    ensures |m| == 2 * height + 2
  {
    seq(2 * height + 2, i requires 0 <= i < 2 * height + 2 => Component(s, rank, height, i))
  }

  // ---------- What a step leaves alone ----------

  predicate SameShape(s: State, t: State) {
    s.Shaped() && t.Shaped() && t.net == s.net
  }

  /** Nothing of a rank below `lo` moves. */
  predicate QuietBelow(s: State, t: State, rank: seq<nat>, lo: nat) {
    && SameShape(s, t) && |rank| == |s.net.kinds|
    && (forall c :: 0 <= c < |s.channels| && s.net.kinds[c] != SinkChannel && rank[c] < lo ==>
          |t.channels[c].buffer| == |s.channels[c].buffer|)
    && forall w :: 0 <= w < |s.workers| && RankOf(s, rank, w) < lo ==> t.workers[w].pc == s.workers[w].pc
  }

  /** No goroutine exits, no source returns, Stop does not move. */
  predicate NobodyLeaves(s: State, t: State) {
    && SameShape(s, t) && t.live == s.live && t.stopper == s.stopper
    && forall w :: 0 <= w < |s.workers| ==> Alive(t.workers[w]) == Alive(s.workers[w])
  }

  lemma QuietRank(s: State, t: State, rank: seq<nat>, lo: nat, r: nat)
    requires QuietBelow(s, t, rank, lo) && r < lo
    ensures BufferVector(t, rank, r) == BufferVector(s, rank, r)
    ensures ProcessingVector(t, rank, r) == ProcessingVector(s, rank, r)
    ensures PendingVector(t, rank, r) == PendingVector(s, rank, r)
  {
  }

  /** Then nothing changes in the measure before position 1 + 2 * lo. */
  lemma QuietComponents(s: State, t: State, rank: seq<nat>, height: nat, lo: nat)
    requires QuietBelow(s, t, rank, lo) && NobodyLeaves(s, t) && lo <= height
    ensures forall i :: 0 <= i < 2 * lo + 1 ==> Component(t, rank, height, i) == Component(s, rank, height, i)
  {
    assert AliveVector(t) == AliveVector(s);
    forall i | 1 <= i < 2 * lo + 1 ensures Component(t, rank, height, i) == Component(s, rank, height, i) {
      QuietRank(s, t, rank, lo, if i % 2 == 1 then i / 2 else i / 2 - 1);
    }
  }

  /** A step is a descent if it lowers the component at k and none before. */
  lemma Descends(s: State, t: State, rank: seq<nat>, height: nat, k: nat)
    requires s.Shaped() && t.Shaped() && |rank| == |s.net.kinds| == |t.net.kinds| && k < 2 * height + 2
    requires Component(t, rank, height, k) < Component(s, rank, height, k)
    requires forall i :: 0 <= i < k ==> Component(t, rank, height, i) == Component(s, rank, height, i)
    ensures Lexicographic.Less(Measure(t, rank, height), Measure(s, rank, height))
  {
    hide Component;
    assert Lexicographic.LessAt(Measure(t, rank, height), Measure(s, rank, height), k);
  }

  // ---------- Every step descends ----------

  lemma LeavingLowers(s: State, step: Step, rank: seq<nat>, height: nat)
    requires CanStep(s, step) && |rank| == |s.net.kinds|
    requires s.stopper.ClosingSources? || s.stopper.ClosingSinks? ==> s.stopper.next <= |s.channels|
    requires step.SeeClosed? || step.SeeDone? || step.SourceReturns? || step.StopStep?
    ensures var t := Next(s, step);
            && s.Shaped() && t.Shaped() && t.net == s.net
            && Component(t, rank, height, 0) < Component(s, rank, height, 0)
  {
    hide ChannelAfter, Sum;
    var t := Next(s, step);
    if step.SeeClosed? || step.SeeDone? {
      assert AliveVector(t) == AliveVector(s)[step.worker := 0];
      SumUpdate(AliveVector(s), step.worker, 0);
    } else {
      assert AliveVector(t) == AliveVector(s);
    }
  }

  lemma LeavingDescends(s: State, step: Step, rank: seq<nat>, height: nat)
    requires CanStep(s, step) && |rank| == |s.net.kinds|
    requires s.stopper.ClosingSources? || s.stopper.ClosingSinks? ==> s.stopper.next <= |s.channels|
    requires step.SeeClosed? || step.SeeDone? || step.SourceReturns? || step.StopStep?
    ensures Next(s, step).Shaped() && Lexicographic.Less(Measure(Next(s, step), rank, height), Measure(s, rank, height))
  {
    hide Measure, Next, CanStep, Component;
    LeavingLowers(s, step, rank, height);
    Descends(s, Next(s, step), rank, height, 0);
  }

  /** Among the channels of rank r that goroutines read, only c's buffer may change. */
  predicate OnlyBuffer(s: State, t: State, rank: seq<nat>, r: nat, c: nat) {
    SameShape(s, t) && |rank| == |s.net.kinds|
    && forall d :: 0 <= d < |s.channels| && d != c && rank[d] == r && s.net.kinds[d] != SinkChannel ==>
         |t.channels[d].buffer| == |s.channels[d].buffer|
  }

  /** Among the workers of rank r, only w may move. */
  predicate OnlyWorker(s: State, t: State, rank: seq<nat>, r: nat, w: nat) {
    SameShape(s, t)
    && forall v :: 0 <= v < |s.workers| && v != w && RankOf(s, rank, v) == r ==> t.workers[v].pc == s.workers[v].pc
  }

  lemma BufferSum(s: State, t: State, rank: seq<nat>, r: nat, c: nat)
    requires OnlyBuffer(s, t, rank, r, c) && c < |s.channels|
    ensures Sum(BufferVector(t, rank, r)) + BufferWeight(s.net.kinds[c], s.channels[c], rank[c], r)
         == Sum(BufferVector(s, rank, r)) + BufferWeight(s.net.kinds[c], t.channels[c], rank[c], r)
  {
    var x := BufferWeight(s.net.kinds[c], t.channels[c], rank[c], r);
    assert BufferVector(t, rank, r) == BufferVector(s, rank, r)[c := x];
    SumUpdate(BufferVector(s, rank, r), c, x);
  }

  lemma ProcessingSum(s: State, t: State, rank: seq<nat>, r: nat, w: nat)
    requires OnlyWorker(s, t, rank, r, w) && w < |s.workers|
    ensures Sum(ProcessingVector(t, rank, r)) + ProcessingWeight(s.workers[w], RankOf(s, rank, w), r)
         == Sum(ProcessingVector(s, rank, r)) + ProcessingWeight(t.workers[w], RankOf(s, rank, w), r)
  {
    var x := ProcessingWeight(t.workers[w], RankOf(s, rank, w), r);
    assert ProcessingVector(t, rank, r) == ProcessingVector(s, rank, r)[w := x];
    SumUpdate(ProcessingVector(s, rank, r), w, x);
  }

  lemma PendingSum(s: State, t: State, rank: seq<nat>, r: nat, w: nat)
    requires OnlyWorker(s, t, rank, r, w) && w < |s.workers|
    ensures Sum(PendingVector(t, rank, r)) + PendingWeight(s.workers[w], RankOf(s, rank, w), r)
         == Sum(PendingVector(s, rank, r)) + PendingWeight(t.workers[w], RankOf(s, rank, w), r)
  {
    var x := PendingWeight(t.workers[w], RankOf(s, rank, w), r);
    assert PendingVector(t, rank, r) == PendingVector(s, rank, r)[w := x];
    SumUpdate(PendingVector(s, rank, r), w, x);
  }

  /** Taking a message: one message less in the buffer, and only the taker moves. */
  lemma TakeEffect(s: State, step: Step, rank: seq<nat>, height: nat)
    requires CanStep(s, step) && step.Take? && Ranked(s.net, rank, height)
    ensures var t, w := Next(s, step), step.worker;
            var c := s.net.jobs[w].input;
            && s.Shaped() && c < |rank| && w < |s.workers| && rank[c] < height && s.net.kinds[c] != SinkChannel
            && NobodyLeaves(s, t) && QuietBelow(s, t, rank, rank[c])
            && OnlyBuffer(s, t, rank, rank[c], c) && OnlyWorker(s, t, rank, rank[c], w)
            && |t.channels[c].buffer| + 1 == |s.channels[c].buffer|
  {
    hide Fanned;
    assert s.net.JobFits(s.net.jobs[step.worker]);
  }

  lemma TakeDescends(s: State, step: Step, rank: seq<nat>, height: nat)
    requires CanStep(s, step) && step.Take? && Ranked(s.net, rank, height)
    ensures Next(s, step).Shaped() && Lexicographic.Less(Measure(Next(s, step), rank, height), Measure(s, rank, height))
  {
    hide Measure, Next, CanStep, Sum, QuietBelow, NobodyLeaves, OnlyBuffer, OnlyWorker, BufferVector, ProcessingVector;
    TakeEffect(s, step, rank, height);
    var t, w := Next(s, step), step.worker;
    var c := s.net.jobs[w].input;
    Shapes(s, t, rank[c], rank);
    BufferSum(s, t, rank, rank[c], c);
    ProcessingSum(s, t, rank, rank[c], w);
    QuietComponents(s, t, rank, height, rank[c]);
    Descends(s, t, rank, height, 2 * rank[c] + 1);
  }

  lemma Shapes(s: State, t: State, lo: nat, rank: seq<nat>)
    requires QuietBelow(s, t, rank, lo)
    ensures s.Shaped() && t.Shaped() && t.net == s.net && |rank| == |s.net.kinds|
  {
  }

  /** Process returns: only that worker moves, and it is no longer processing. */
  lemma ProcessedEffect(s: State, step: Step, rank: seq<nat>, height: nat)
    requires CanStep(s, step) && step.Processed? && Ranked(s.net, rank, height)
    ensures var t, w := Next(s, step), step.worker;
            var c := s.net.jobs[w].input;
            && s.Shaped() && c < |rank| && w < |s.workers| && rank[c] < height
            && NobodyLeaves(s, t) && QuietBelow(s, t, rank, rank[c])
            && OnlyBuffer(s, t, rank, rank[c], c) && OnlyWorker(s, t, rank, rank[c], w)
            && |t.channels[c].buffer| == |s.channels[c].buffer|
            && s.workers[w].pc.Processing? && !t.workers[w].pc.Processing?
  {
    hide Fanned;
    assert s.net.JobFits(s.net.jobs[step.worker]);
  }

  lemma ProcessedDescends(s: State, step: Step, rank: seq<nat>, height: nat)
    requires CanStep(s, step) && step.Processed? && Ranked(s.net, rank, height)
    ensures Next(s, step).Shaped() && Lexicographic.Less(Measure(Next(s, step), rank, height), Measure(s, rank, height))
  {
    hide Measure, Next, CanStep, Sum, QuietBelow, NobodyLeaves, OnlyBuffer, OnlyWorker, BufferVector, ProcessingVector;
    ProcessedEffect(s, step, rank, height);
    var t, w := Next(s, step), step.worker;
    var c := s.net.jobs[w].input;
    Shapes(s, t, rank[c], rank);
    BufferSum(s, t, rank, rank[c], c);
    ProcessingSum(s, t, rank, rank[c], w);
    QuietComponents(s, t, rank, height, rank[c]);
    Descends(s, t, rank, height, 2 * rank[c] + 1);
  }

  // ---------- Sending ----------

  /** A send, or a hand-over by a goroutine: it has one delivery less in hand, and the rest happens at higher ranks. */
  predicate SendEffect(s: State, t: State, rank: seq<nat>, height: nat, w: nat) {
    && SameShape(s, t) && |rank| == |s.net.kinds| && w < |s.workers| && RankOf(s, rank, w) < height
    && NobodyLeaves(s, t) && QuietBelow(s, t, rank, RankOf(s, rank, w))
    && OnlyBuffer(s, t, rank, RankOf(s, rank, w), |s.channels|) && OnlyWorker(s, t, rank, RankOf(s, rank, w), w)
    && s.workers[w].pc.Sending? && !t.workers[w].pc.Processing?
    && PendingWeight(t.workers[w], 0, 0) < PendingWeight(s.workers[w], 0, 0)
  }

  lemma SendEffectDescends(s: State, t: State, rank: seq<nat>, height: nat, w: nat)
    requires SendEffect(s, t, rank, height, w)
    ensures Lexicographic.Less(Measure(t, rank, height), Measure(s, rank, height))
  {
    hide Measure, Sum, QuietBelow, NobodyLeaves, ProcessingVector, PendingVector;
    var r := RankOf(s, rank, w);
    assert BufferVector(t, rank, r) == BufferVector(s, rank, r);
    ProcessingSum(s, t, rank, r, w);
    PendingSum(s, t, rank, r, w);
    QuietComponents(s, t, rank, height, r);
    Descends(s, t, rank, height, 2 * r + 2);
  }

  /** What a worker has in hand goes to channels of a higher rank. */
  lemma PendingGoesUp(s: State, rank: seq<nat>, height: nat, w: nat)
    requires Inv(s) && Ranked(s.net, rank, height) && IsSending(s, w)
    ensures RankOf(s, rank, w) < rank[Pending(s, w).channel] < height
  {
    hide HistoriesAgree, ChannelOk, ClosedByNow, StopOrder;
    var job, worker := s.net.jobs[w], s.workers[w];
    assert WorkerOk(s.net, job, worker) && Upward(job, rank);
    OwedGoesUp(job, rank, worker.results);
    assert Owed(job, worker.results)[|worker.sent|] == worker.pc.pending[0];
  }

  predicate AllAbove(ds: seq<Delivery>, rank: seq<nat>, lo: nat) {
    forall i :: 0 <= i < |ds| ==> ds[i].channel < |rank| && lo < rank[ds[i].channel]
  }

  lemma ToAllGoesUp(channels: seq<nat>, m: Message, rank: seq<nat>, lo: nat)
    requires forall k :: 0 <= k < |channels| ==> channels[k] < |rank| && lo < rank[channels[k]]
    ensures AllAbove(ToAll(channels, m), rank, lo)
  {
  }

  lemma {:induction false} FannedGoesUp(job: Job, rank: seq<nat>, outputs: seq<Message>)
    requires Upward(job, rank)
    ensures AllAbove(Fanned(job, outputs), rank, rank[job.input])
  {
    if outputs != [] {
      FannedGoesUp(job, rank, outputs[..|outputs| - 1]);
      ToAllGoesUp(Listed(job, outputs[|outputs| - 1]), outputs[|outputs| - 1], rank, rank[job.input]);
    }
  }

  lemma {:induction false} OwedGoesUp(job: Job, rank: seq<nat>, results: seq<Option<seq<Message>>>)
    requires Upward(job, rank)
    ensures AllAbove(Owed(job, results), rank, rank[job.input])
  {
    if results != [] {
      OwedGoesUp(job, rank, results[..|results| - 1]);
      if results[|results| - 1].Some? {
        FannedGoesUp(job, rank, results[|results| - 1].value);
      }
    }
  }

  lemma SendLowers(s: State, step: Step, rank: seq<nat>, height: nat)
    requires CanStep(s, step) && Inv(s) && Ranked(s.net, rank, height) && step.Send?
    ensures SendEffect(s, Next(s, step), rank, height, step.worker)
  {
    hide Inv, Owed;
    NeverPanics(s, step);
    PendingGoesUp(s, rank, height, step.worker);
  }

  lemma HandToSinkLowers(s: State, step: Step, rank: seq<nat>, height: nat)
    requires CanStep(s, step) && Inv(s) && Ranked(s.net, rank, height) && step.HandToSink?
    ensures SendEffect(s, Next(s, step), rank, height, step.worker)
  {
    hide Inv, Owed;
    PendingGoesUp(s, rank, height, step.worker);
  }

  lemma HandToWorkerLowers(s: State, step: Step, rank: seq<nat>, height: nat)
    requires CanStep(s, step) && Inv(s) && Ranked(s.net, rank, height) && step.HandToWorker? && step.sender.Some?
    ensures SendEffect(s, Next(s, step), rank, height, step.sender.value)
  {
    hide Inv, Owed, Fanned;
    PendingGoesUp(s, rank, height, step.sender.value);
  }

  lemma SinkTakeIsQuiet(s: State, step: Step, rank: seq<nat>, height: nat)
    requires CanStep(s, step) && Ranked(s.net, rank, height) && step.SinkTake?
    ensures Next(s, step).Shaped() && |rank| == |s.net.kinds|
    ensures QuietBelow(s, Next(s, step), rank, height) && NobodyLeaves(s, Next(s, step))
  {
  }

  /** A sink takes a message: nothing else moves. */
  lemma SinkTakeDescends(s: State, step: Step, rank: seq<nat>, height: nat)
    requires CanStep(s, step) && Ranked(s.net, rank, height) && step.SinkTake?
    ensures Next(s, step).Shaped() && Lexicographic.Less(Measure(Next(s, step), rank, height), Measure(s, rank, height))
  {
    hide Measure, BufferVector, ProcessingVector, PendingVector, Ranked;
    var t, c := Next(s, step), step.channel;
    SinkTakeIsQuiet(s, step, rank, height);
    QuietComponents(s, t, rank, height, height);
    assert SinkVector(t) == SinkVector(s)[c := |s.channels[c].buffer| - 1];
    SumUpdate(SinkVector(s), c, |s.channels[c].buffer| - 1);
    Descends(s, t, rank, height, 2 * height + 1);
  }

  /** A source sends, into a buffer or straight to an adapter. */
  predicate FromSource(step: Step) {
    step.SourceSend? || (step.HandToWorker? && step.sender.None?)
  }

  /** Every step of an acyclic DAG that is not a source's lowers the measure. */
  lemma EveryStepDescends(s: State, step: Step, rank: seq<nat>, height: nat)
    requires CanStep(s, step) && Inv(s) && Ranked(s.net, rank, height) && !FromSource(step)
    ensures Next(s, step).Shaped() && Next(s, step).net == s.net
    ensures Lexicographic.Less(Measure(Next(s, step), rank, height), Measure(s, rank, height))
  {
    hide Inv, Measure, CanStep, Next, Lexicographic.Less, SendEffect;
    StaysShaped(s, step);
    match step {
      case Take(_) => TakeDescends(s, step, rank, height);
      case Processed(_, _) => ProcessedDescends(s, step, rank, height);
      case Send(w) =>
        SendLowers(s, step, rank, height);
        SendEffectDescends(s, Next(s, step), rank, height, w);
      case HandToWorker(from, _, _, _) =>
        HandToWorkerLowers(s, step, rank, height);
        SendEffectDescends(s, Next(s, step), rank, height, from.value);
      case HandToSink(w) =>
        HandToSinkLowers(s, step, rank, height);
        SendEffectDescends(s, Next(s, step), rank, height, w);
      case SinkTake(_) => SinkTakeDescends(s, step, rank, height);
      case _ =>
        StopIndexInRange(s);
        LeavingDescends(s, step, rank, height);
    }
  }

  lemma StopIndexInRange(s: State)
    requires Inv(s)
    ensures s.stopper.ClosingSources? || s.stopper.ClosingSinks? ==> s.stopper.next <= |s.channels|
  {
  }

  lemma StaysShaped(s: State, step: Step)
    requires CanStep(s, step)
    ensures Next(s, step).Shaped() && Next(s, step).net == s.net && |s.net.kinds| == |s.channels|
    ensures Draining(s) ==> Draining(Next(s, step))
  {
  }

  // ---------- Termination and progress ----------

  ghost predicate StepsTo(s: State, t: State) {
    exists step {:trigger CanStep(s, step)} :: CanStep(s, step) && t == Next(s, step)
  }

  ghost predicate Follows(run: nat -> State, i: nat) {
    StepsTo(run(i), run(i + 1))
  }

  /** A step that is not a source's. */
  ghost predicate QuietlyTo(s: State, t: State) {
    exists step {:trigger CanStep(s, step)} :: CanStep(s, step) && !FromSource(step) && t == Next(s, step)
  }

  ghost predicate QuietlyFollows(run: nat -> State, i: nat) {
    QuietlyTo(run(i), run(i + 1))
  }

  lemma {:induction false} InvAlong(run: nat -> State, i: nat)
    requires Inv(run(0)) && forall j: nat :: Follows(run, j)
    ensures Inv(run(i)) && run(i).net == run(0).net && (Draining(run(0)) ==> Draining(run(i)))
  {
    hide Inv, CanStep, Next, Draining;
    if i > 0 {
      InvAlong(run, i - 1);
      assert Follows(run, i - 1);
      var step :| CanStep(run(i - 1), step) && run(i) == Next(run(i - 1), step);
      StepKeepsInv(run(i - 1), step);
      StaysShaped(run(i - 1), step);
    }
  }

  function MeasureOrNothing(s: State, rank: seq<nat>, height: nat): (m: seq<nat>)
    ensures |m| == 2 * height + 2
  {
    if s.Shaped() && |rank| == |s.net.kinds| then Measure(s, rank, height) else seq(2 * height + 2, _ => 0)
  }

  lemma QuietIsStep(run: nat -> State, i: nat)
    requires QuietlyFollows(run, i)
    ensures Follows(run, i)
  {
  }

  /**
   While sources are silent, an acyclic DAG has no infinite run, in whatever state and however far Stop has come: every
   infinite sequence of states breaks off somewhere.
   */
  lemma ShutdownTerminates(run: nat -> State, rank: seq<nat>, height: nat)
    requires Inv(run(0)) && Ranked(run(0).net, rank, height)
    ensures exists i: nat :: !QuietlyFollows(run, i)
  {
    hide Inv, Ranked, CanStep, Next;
    if forall i: nat :: QuietlyFollows(run, i) {
      forall i: nat ensures Follows(run, i) {
        QuietIsStep(run, i);
      }
      var measures: nat -> seq<nat> := (i: nat) => MeasureOrNothing(run(i), rank, height);
      forall i: nat ensures |measures(i)| == 2 * height + 2 {
        assert measures(i) == MeasureOrNothing(run(i), rank, height);
      }
      var at := Lexicographic.NoInfiniteDescent(measures, 2 * height + 2);
      InvAlong(run, at);
      DescendsAt(run, rank, height, at);
      assert false;
    }
  }

  lemma DescendsAt(run: nat -> State, rank: seq<nat>, height: nat, i: nat)
    requires Inv(run(i)) && Ranked(run(i).net, rank, height) && QuietlyFollows(run, i)
    ensures Lexicographic.Less(MeasureOrNothing(run(i + 1), rank, height), MeasureOrNothing(run(i), rank, height))
  {
    var step :| CanStep(run(i), step) && !FromSource(step) && run(i + 1) == Next(run(i), step);
    EveryStepDescends(run(i), step, rank, height);
  }

  /** While draining, a source's send panics, and ends the run. */
  lemma SourceSendIsTheEnd(s: State, step: Step)
    requires CanStep(s, step) && Inv(s) && Draining(s) && FromSource(step)
    ensures Next(s, step).panicked
  {
  }

  /** Once the source channels are closed, every run of an acyclic DAG ends, whatever the sources do. */
  lemma DrainingTerminates(run: nat -> State, rank: seq<nat>, height: nat)
    requires Inv(run(0)) && Draining(run(0)) && Ranked(run(0).net, rank, height)
    ensures exists i: nat :: !Follows(run, i)
  {
    hide Inv, Ranked, CanStep, Next, Draining;
    if forall i: nat :: Follows(run, i) {
      forall i: nat ensures QuietlyFollows(run, i) {
        InvAlong(run, i);
        assert Follows(run, i) && Follows(run, i + 1);
        GoesOnQuietly(run, i);
      }
      ShutdownTerminates(run, rank, height);
    }
  }

  lemma GoesOnQuietly(run: nat -> State, i: nat)
    requires Inv(run(i)) && Draining(run(i)) && Follows(run, i) && Follows(run, i + 1)
    ensures QuietlyFollows(run, i)
  {
    hide Inv, Draining;
    var step :| CanStep(run(i), step) && run(i + 1) == Next(run(i), step);
    if FromSource(step) {
      SourceSendIsTheEnd(run(i), step);
    }
  }

  /** Until the DAG has stopped, the DAG itself, Stop or a returning source can move, if Process returns. */
  lemma ShutdownProgresses(s: State) returns (step: Step)
    requires Inv(s) && s.cancelled && !s.stopper.Stopped? && !s.panicked
    ensures CanStep(s, step) && !FromSource(step) && !step.SinkTake?
  {
    if w: nat :| w < |s.workers| && !s.workers[w].pc.Exited? {
      step := if s.workers[w].pc.Processing? then Processed(w, None) else SeeDone(w);
    } else if s.live > 0 {
      step := SourceReturns;
    } else {
      step := StopStep;
    }
  }

  /** When Stop is done, every goroutine has exited and every source and sink channel is closed. */
  lemma StoppedMeansQuiet(s: State)
    requires Inv(s) && s.stopper.Stopped?
    ensures s.live == 0 && forall w :: 0 <= w < |s.workers| ==> s.workers[w].pc.Exited?
    ensures forall c :: 0 <= c < |s.channels| ==>
      (s.channels[c].closed <==> s.net.kinds[c] == SourceChannel || c in s.net.sinks)
  {
    forall w | 0 <= w < |s.workers| ensures s.workers[w].pc.Exited? {
      assert s.net.jobs[w].Adapter? || !s.net.jobs[w].Adapter?;
    }
  }
}
