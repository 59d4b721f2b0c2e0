/** A cyclic DAG in particular: a processor that feeds itself can keep going after the cancellation, forever. */
module DagRing {
  import opened Wrappers
  import opened DagEngine
  import opened DagShutdown

  const PING := Message("t", "ping")

  /** A processor that reads and emits one type, connected to itself, and a source for it. */
  function Ring(): Network {
    Network([InputChannel, SourceChannel], 1, [Loop(0, map["t" := [0]]), Adapter(1, "t", Some(0))], {})
  }

  function Beginning(): State {
    var idle, empty := Worker(Selecting, [], [], []), Channel([], [], [], false);
    State(Ring(), [empty, empty], [idle, idle], 1, false, Running, false)
  }

  /** One event enters the ring, Stop cancels and closes the source, and the processor prefers its input each time. */
  function StepAt(i: nat): Step {
    match i
    case 0 => SourceSend(1, PING)
    case 1 => Take(1)
    case 2 => Send(1)
    case 3 => SourceReturns
    case 4 => StopStep
    case 5 => StopStep
    case 6 => StopStep
    case 7 => StopStep
    case _ =>
      if (i - 8) % 3 == 0 then Take(0) else if (i - 8) % 3 == 1 then Processed(0, Some([PING])) else Send(0)
  }

  function StopperAt(i: nat): Stopper {
    if i <= 4 then Running
    else if i == 5 then ClosingSources(0)
    else if i == 6 then ClosingSources(1)
    else if i == 7 then ClosingSources(2)
    else WaitingMain
  }

  /** Where the event is after i steps. */
  predicate InRing(s: State, i: nat)
    requires s.Shaped() && s.net == Ring()
  {
    var ring, source, processor, adapter := s.channels[0], s.channels[1], s.workers[0].pc, s.workers[1].pc;
    && !ring.closed && (i < 4 ==> s.live == 1 && !source.closed)
    && match i
       case 0 => ring.buffer == [] && source.buffer == [] && processor == Selecting && adapter == Selecting
       case 1 => ring.buffer == [] && source.buffer == [PING] && processor == Selecting && adapter == Selecting
       case 2 => ring.buffer == [] && processor == Selecting && adapter == Sending([Delivery(0, PING)])
       case _ =>
         if i < 8 || (i - 8) % 3 == 0 then ring.buffer == [PING] && processor == Selecting
         else if (i - 8) % 3 == 1 then ring.buffer == [] && processor == Processing(PING)
         else ring.buffer == [] && processor == Sending([Delivery(0, PING)])
  }

  predicate Stage(s: State, i: nat) {
    && s.Shaped() && s.net == Ring() && !s.panicked
    && s.stopper == StopperAt(i) && (s.cancelled <==> i > 4) && (i >= 4 ==> s.live == 0) && InRing(s, i)
  }

  lemma EventEnters(s: State, i: nat)
    requires Stage(s, i) && i < 4
    ensures CanStep(s, StepAt(i)) && Stage(Next(s, StepAt(i)), i + 1)
  {
    hide Fanned;
    PingGoesRound();
  }

  lemma StopProceeds(s: State, i: nat)
    requires Stage(s, i) && 4 <= i < 8
    ensures CanStep(s, StepAt(i)) && Stage(Next(s, StepAt(i)), i + 1)
  {
    hide Fanned, Taking, Finish;
  }

  lemma EventGoesRound(s: State, i: nat)
    requires Stage(s, i) && 8 <= i
    ensures CanStep(s, StepAt(i)) && Stage(Next(s, StepAt(i)), i + 1)
  {
    hide Fanned;
    PingGoesRound();
  }

  lemma StageWorks(s: State, i: nat)
    requires Stage(s, i)
    ensures CanStep(s, StepAt(i)) && Stage(Next(s, StepAt(i)), i + 1)
  {
    hide Stage, CanStep, Next, StepAt;
    if i < 4 {
      EventEnters(s, i);
    } else if i < 8 {
      StopProceeds(s, i);
    } else {
      EventGoesRound(s, i);
    }
  }

  lemma PingGoesRound()
    ensures Fanned(Loop(0, map["t" := [0]]), [PING]) == [Delivery(0, PING)]
    ensures Fanned(Adapter(1, "t", Some(0)), [PING]) == [Delivery(0, PING)]
  {
    assert [PING][..0] == [] && ToAll([0], PING) == [Delivery(0, PING)];
  }

  ghost function Endless(i: nat): (s: State)
    ensures Stage(s, i)
  {
    if i == 0 then RingIsShaped(); Beginning()
    else
      var before := Endless(i - 1);
      StageWorks(before, i - 1);
      Next(before, StepAt(i - 1))
  }

  lemma RingIsShaped()
    ensures Beginning().Shaped()
  {
  }

  lemma EndlessGoesOn(i: nat)
    ensures StepsTo(Endless(i), Endless(i + 1))
  {
    hide CanStep, Next, Stage, StepAt;
    StageWorks(Endless(i), i);
    assert Endless(i + 1) == Next(Endless(i), StepAt(i));
  }

  lemma EndlessDrains(i: nat)
    requires i >= 8
    ensures Draining(Endless(i)) && Endless(i).live == 0
  {
    assert Stage(Endless(i), i);
  }

  /**
   From a freshly started DAG with a cycle there is a run that never ends, though Stop was called and sources are
   quiet.
   */
  lemma CyclicDagMayNeverShutDown() returns (run: nat -> State)
    ensures Initial(run(0)) && run(0).net.WellFormed() && forall i: nat :: Follows(run, i)
    ensures forall i: nat :: i >= 8 ==> Draining(run(i)) && run(i).live == 0
  {
    hide Endless, StepsTo, Draining, Stage;
    run := (i: nat) => Endless(i);
    BeginningIsInitial();
    forall i: nat ensures Follows(run, i) {
      EndlessGoesOn(i);
    }
    forall i: nat | i >= 8 ensures Draining(run(i)) && run(i).live == 0 {
      EndlessDrains(i);
    }
  }

  lemma BeginningIsInitial()
    ensures Endless(0) == Beginning() && Initial(Beginning())
  {
  }
}
