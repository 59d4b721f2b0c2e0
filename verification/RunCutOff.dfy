/** An interrupted run that is recorded FAILED: a forwarding Send reports end-of-file after the cancellation. */
module RunCutOff {
  import opened Wrappers
  import opened RunTerminal
  import T = Transport
  import D = DeliveryProtocol
  import W = DeliveryWorker

  /** A finite source, a processor and a sink. */
  function ForwardedPipeline(): State {
    State(D.State([T.Edge(T.ForwardSource(true), 0, "source", 0, [T.Processor("processor", 1)]),
                   T.Edge(T.FanOutProcessor, 0, "processor", 1, [T.Sink("sink", 2, [])])],
                  [], [D.Feed([], false), D.Feed([], false), D.Feed([], false)], false, None),
          Wiring, false, false, false, false, None, false, false)
  }

  /** Delivery is supervised; the first edge has taken the source's only event. */
  function OnItsWay(e: T.Event, first: W.Pc, second: W.Pc, over: bool, held: Option<T.DeliveryError>): State {
    var start := ForwardedPipeline();
    start.(phase := Selecting, waiting := true, contextOver := over,
           delivery := start.delivery.(
             workers := [W.Worker(first, [e], false, [[]], []), W.Worker(second, [], false, [[]], [])],
             feeds := [D.Feed([e], false), D.Feed([], false), D.Feed([], false)],
             stopped := over, first := held))
  }

  function Interruption(e: T.Event): State {
    OnItsWay(e, W.Sending(e, 0), W.Receiving, true, None)
  }

  function CutOff(e: T.Event): T.DeliveryError {
    W.Fault(ForwardedPipeline().delivery.plan[0], "processor", T.Send, Some(e), T.EndOfFile)
  }

  function Canceled(): T.DeliveryError {
    W.Fault(ForwardedPipeline().delivery.plan[1], "sinks", T.Recv, None, T.Status(T.Canceled))
  }

  /** One step that leads from s to t. */
  predicate Leads(s: State, step: Step, t: State) {
    CanStep(s, step) && Next(s, step) == t
  }

  /** Both edges are launched, and wiring is done. */
  function Wired(): State {
    var s := ForwardedPipeline();
    var receiving := W.Worker(W.Receiving, [], false, [[]], []);
    s.(phase := Selecting, waiting := true, delivery := s.delivery.(workers := [receiving, receiving]))
  }

  function Emitted(e: T.Event): State {
    Wired().(delivery := Wired().delivery.(feeds := [D.Feed([e], false), D.Feed([], false), D.Feed([], false)]))
  }

  lemma Wires()
    ensures var s, receiving := ForwardedPipeline(), W.Worker(W.Receiving, [], false, [[]], []);
            var one := s.(delivery := s.delivery.(workers := [receiving]));
            var both := s.(delivery := s.delivery.(workers := [receiving, receiving]));
            && Leads(s, Deliver(D.Launch), one) && Leads(one, Deliver(D.Launch), both)
            && Leads(both, WiringDone, Wired())
  {
    var plan := ForwardedPipeline().delivery.plan;
    assert W.Start(plan[0]).sent == [[]] && W.Start(plan[1]).sent == [[]];
  }

  lemma Takes(e: T.Event)
    ensures Leads(Wired(), Deliver(D.Emit(0, e)), Emitted(e))
    ensures Leads(Emitted(e), Deliver(D.Work(0, W.GotEvent(e))), OnItsWay(e, W.Sending(e, 0), W.Receiving, false, None))
  {
    var s, t := Wired().delivery, OnItsWay(e, W.Sending(e, 0), W.Receiving, false, None).delivery;
    var nothing: seq<T.Event> := [];
    assert nothing + [e] == [e];
    assert D.Next(s, D.Emit(0, e)).feeds == t.feeds;
    assert D.Next(Emitted(e).delivery, D.Work(0, W.GotEvent(e))).workers == t.workers;
  }

  lemma FirstLeaves(e: T.Event)
    ensures var cut := Some(CutOff(e));
            var returned := OnItsWay(e, W.Returned(cut), W.Receiving, true, None);
            var decided := OnItsWay(e, W.Decided(cut, false), W.Receiving, true, None);
            && Leads(Interruption(e), Deliver(D.Work(0, W.SendFailed(T.EndOfFile, None))), returned)
            && Leads(returned, Deliver(D.Decide(0)), decided)
            && Leads(decided, Deliver(D.Record(0)), OnItsWay(e, W.Done(cut, false), W.Receiving, true, cut))
  {
  }

  lemma SecondLeaves(e: T.Event)
    ensures var cut, gone := Some(CutOff(e)), Some(Canceled());
            var first := W.Done(cut, false);
            var returned := OnItsWay(e, first, W.Returned(gone), true, cut);
            var decided := OnItsWay(e, first, W.Decided(gone, false), true, cut);
            && Leads(OnItsWay(e, first, W.Receiving, true, cut),
                     Deliver(D.Work(1, W.GotError(T.Status(T.Canceled)))), returned)
            && Leads(returned, Deliver(D.Decide(1)), decided)
            && Leads(decided, Deliver(D.Record(1)), OnItsWay(e, first, W.Done(gone, false), true, cut))
  {
  }

  lemma Reports(e: T.Event)
    ensures var cut := Some(CutOff(e));
            var s := OnItsWay(e, W.Done(cut, false), W.Done(Some(Canceled()), false), true, cut);
            var reported := s.(reported := true, terminal := Some(cut));
            && Leads(s, Report, reported)
            && Leads(reported, TakeContext, reported.(phase := Polling))
            && Leads(reported.(phase := Polling), PollHit,
                     reported.(phase := Recording(FailedRun, cut), terminal := None))
  {
  }

  lemma RunThrough(s: State, a: Step, t: State, b: Step, u: State, c: Step, v: State, rest: seq<Step>)
    returns (steps: seq<Step>)
    requires Leads(s, a, t) && Leads(t, b, u) && Leads(u, c, v) && Possible(v, rest)
    ensures Possible(s, steps) && Run(s, steps) == Run(v, rest)
  {
    hide CanStep, Next, Possible, Run;
    RunCons(u, c, rest);
    RunCons(t, b, [c] + rest);
    RunCons(s, a, [b] + ([c] + rest));
    steps := [a] + ([b] + ([c] + rest));
  }

  lemma EmptyRun(s: State)
    ensures Possible(s, []) && Run(s, []) == s
  {
  }

  /** The event is on its way to the processor when the context is cancelled; no edge has failed. */
  lemma ComesToInterruption(e: T.Event) returns (steps: seq<Step>)
    ensures Initial(ForwardedPipeline()) && Possible(ForwardedPipeline(), steps)
    ensures Run(ForwardedPipeline(), steps) == Interruption(e)
    ensures Interrupted(Interruption(e)) && D.NothingFailed(Interruption(e).delivery)
  {
    hide Possible, Run, D.CanStep, D.Next;
    Wires();
    Takes(e);
    EmptyRun(Interruption(e));
    var s, receiving := ForwardedPipeline(), W.Worker(W.Receiving, [], false, [[]], []);
    var one := s.(delivery := s.delivery.(workers := [receiving]));
    var both := s.(delivery := s.delivery.(workers := [receiving, receiving]));
    var sending := OnItsWay(e, W.Sending(e, 0), W.Receiving, false, None);
    assert Leads(sending, CancelContext, Interruption(e));
    steps := RunThrough(Wired(), Deliver(D.Emit(0, e)), Emitted(e), Deliver(D.Work(0, W.GotEvent(e))), sending,
                        CancelContext, Interruption(e), []);
    steps := RunThrough(s, Deliver(D.Launch), one, Deliver(D.Launch), both, WiringDone, Wired(), steps);
  }

  /** The Send then reports end-of-file, which launch does not forgive, and the run is recorded FAILED. */
  lemma CutOffSendFailsTheRun(e: T.Event) returns (before: seq<Step>, after: seq<Step>)
    ensures Initial(ForwardedPipeline()) && Possible(ForwardedPipeline(), before)
    ensures var s := Run(ForwardedPipeline(), before);
            && Interrupted(s) && D.NothingFailed(s.delivery) && Possible(s, after)
            && Run(s, after).phase == Recording(FailedRun, Some(CutOff(e))) && CutOff(e).cause == T.EndOfFile
  {
    hide Possible, Run, CanStep, Next, Interruption, OnItsWay;
    before := ComesToInterruption(e);
    var cut, gone := Some(CutOff(e)), Some(Canceled());
    var first := W.Done(cut, false);
    FirstLeaves(e);
    SecondLeaves(e);
    Reports(e);
    var idle := OnItsWay(e, first, W.Receiving, true, cut);
    var left := OnItsWay(e, first, W.Done(gone, false), true, cut);
    var reported := left.(reported := true, terminal := Some(cut));
    var recorded := reported.(phase := Recording(FailedRun, cut), terminal := None);
    EmptyRun(recorded);
    after := RunThrough(left, Report, reported, TakeContext, reported.(phase := Polling), PollHit, recorded, []);
    after := RunThrough(idle, Deliver(D.Work(1, W.GotError(T.Status(T.Canceled)))),
                        OnItsWay(e, first, W.Returned(gone), true, cut), Deliver(D.Decide(1)),
                        OnItsWay(e, first, W.Decided(gone, false), true, cut), Deliver(D.Record(1)), left, after);
    after := RunThrough(Interruption(e), Deliver(D.Work(0, W.SendFailed(T.EndOfFile, None))),
                        OnItsWay(e, W.Returned(cut), W.Receiving, true, None), Deliver(D.Decide(0)),
                        OnItsWay(e, W.Decided(cut, false), W.Receiving, true, None), Deliver(D.Record(0)), idle, after);
  }
}
