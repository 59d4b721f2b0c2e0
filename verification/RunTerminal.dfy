/**
 The life of a supervised run from wiring to exit: Run's terminal phase, the goroutine that waits for delivery, the
 operator's signal and the cancellation of the run context, interleaved with every delivery edge.
 */
module RunTerminal {
  import opened Wrappers
  import opened Transport
  import D = DeliveryProtocol

  datatype Status = Completed | Stopped | FailedRun

  datatype Phase =
    | Wiring                                          // WireAll is running
    | Reaping(wireError: DeliveryError)               // wiring failed: streamOrch.Stop() waits for the edges
    | Selecting                                       // the select over terminal, signal and context
    | Polling                                         // waitForTerminalOnStop looks once without waiting
    | Awaiting                                        // waitForTerminalOnStop cancelled and waits
    | Recording(status: Status, err: Option<DeliveryError>)   // the run's status is decided
    | Deferred(status: Status, err: Option<DeliveryError>)    // components are stopped; the deferred Stop waits
    | Exited(status: Status, err: Option<DeliveryError>)

  /**
   `terminal`: the buffered channel between the waiting goroutine and Run. `reported`: that goroutine has sent.
   `contextOver`: r.ctx is done. `taken`: the first select received from terminal.
   */
  datatype State = State(
    delivery: D.State, phase: Phase, contextOver: bool, signaled: bool,
    waiting: bool, reported: bool, terminal: Option<Option<DeliveryError>>, taken: bool, componentsStopped: bool)

  datatype Step =
    | Deliver(step: D.Step)            // one step of the edges; wiring launches them
    | Signal                           // SIGINT or SIGTERM arrives
    | CancelContext                    // r.cancel(), for instance through Stop
    | WiringDone
    | WiringFailed(err: DeliveryError)
    | Reaped
    | Report                           // the goroutine: terminal <- streamOrch.Wait()
    | TakeTerminal
    | TakeSignal
    | TakeContext
    | PollHit
    | PollMiss
    | TakeAwaited
    | StopComponents
    | DeferredStop

  /** The wiring error, unless it is a mere cancellation and the group knows what really failed. */
  function Blame(wireError: DeliveryError, groupError: Option<DeliveryError>): DeliveryError {
    if groupError.Some? && SaysCanceled(wireError.cause) then groupError.value else wireError
  }

  /** Every goroutine that moves events has finished. */
  predicate Reapable(s: State) {
    s.delivery.AllDone()
  }

  predicate CanStep(s: State, step: Step) {
    match step
    case Deliver(d) =>
      D.CanStep(s.delivery, d) && !d.Stop? && (d.Launch? ==> s.phase.Wiring?)
    case Signal => true
    case CancelContext => true
    case WiringDone => s.phase.Wiring? && s.delivery.plan != [] && |s.delivery.workers| == |s.delivery.plan|
    // a pipeline without sources or without sinks has nothing to launch, and is refused
    case WiringFailed(_) =>
      s.phase.Wiring? && (s.delivery.plan == [] || |s.delivery.workers| < |s.delivery.plan|)
    case Reaped => s.phase.Reaping? && Reapable(s)
    case Report => s.waiting && !s.reported && Reapable(s)
    case TakeTerminal => s.phase.Selecting? && s.terminal.Some?
    case TakeSignal => s.phase.Selecting? && s.signaled
    case TakeContext => s.phase.Selecting? && s.contextOver
    case PollHit => s.phase.Polling? && s.terminal.Some?
    case PollMiss => s.phase.Polling? && s.terminal.None?
    case TakeAwaited => s.phase.Awaiting? && s.terminal.Some?
    case StopComponents => s.phase.Recording?
    case DeferredStop => s.phase.Deferred? && Reapable(s)
  }

  /** The status waitForTerminalOnStop leads to. */
  function AfterStop(r: Option<DeliveryError>): Phase {
    Recording(if r.Some? then FailedRun else Stopped, r)
  }

  function Next(s: State, step: Step): State
    requires CanStep(s, step)
  {
    var halted := s.delivery.(stopped := true);
    match step
    case Deliver(d) => s.(delivery := D.Next(s.delivery, d))
    case Signal => s.(signaled := true)
    case CancelContext => s.(contextOver := true, delivery := halted)
    case WiringDone => s.(phase := Selecting, waiting := true)
    case WiringFailed(err) => s.(phase := Reaping(err), delivery := halted)
    case Reaped =>
      s.(phase := Recording(FailedRun, Some(Blame(s.phase.wireError, D.WaitResult(s.delivery.first)))))
    case Report => s.(reported := true, terminal := Some(D.WaitResult(s.delivery.first)))
    case TakeTerminal =>
      var r := s.terminal.value;
      s.(terminal := None, taken := true,
         phase := if r.Some? then Recording(FailedRun, r)
                  else if s.contextOver then Polling else Recording(Completed, None))
    case TakeSignal => s.(phase := Polling)
    case TakeContext => s.(phase := Polling)
    case PollHit => s.(terminal := None, phase := AfterStop(s.terminal.value))
    case PollMiss => s.(phase := Awaiting, delivery := halted)
    case TakeAwaited => s.(terminal := None, phase := AfterStop(s.terminal.value))
    case StopComponents =>
      s.(phase := Deferred(s.phase.status, s.phase.err), componentsStopped := true, contextOver := true,
        delivery := halted)
    case DeferredStop => s.(phase := Exited(s.phase.status, s.phase.err))
  }

  /** Wiring is about to begin; the run context may already be over. */
  predicate Initial(s: State) {
    && s.delivery.WellFormed() && s.delivery.workers == [] && s.delivery.first.None?
    && (s.delivery.stopped <==> s.contextOver) && s.phase == Wiring
    && !s.waiting && !s.reported && s.terminal.None? && !s.taken && !s.componentsStopped
  }

  ghost predicate Possible(s: State, steps: seq<Step>)
    decreases |steps|
  {
    steps == [] || (CanStep(s, steps[0]) && Possible(Next(s, steps[0]), steps[1..]))
  }

  ghost function Run(s: State, steps: seq<Step>): State
    requires Possible(s, steps)
    decreases |steps|
  {
    if steps == [] then s else Run(Next(s, steps[0]), steps[1..])
  }

  // ---------- The invariant ----------

  /** The run has been recorded with this status. */
  predicate RecordedAs(s: State, status: Status) {
    (s.phase.Recording? || s.phase.Deferred? || s.phase.Exited?) && s.phase.status == status
  }

  predicate Settled(s: State) {
    s.phase.Recording? || s.phase.Deferred? || s.phase.Exited?
  }

  predicate Inv(s: State) {
    && D.GlobalInv(s.delivery)
    // before the end, only the run context stops delivery
    && (s.phase.Wiring? || s.phase.Selecting? ==> (s.delivery.stopped ==> s.contextOver))
    && (s.phase.Polling? && !s.taken ==> (s.delivery.stopped ==> s.contextOver))
    && (s.phase.Reaping? || s.phase.Awaiting? || s.phase.Deferred? || s.phase.Exited? ==> s.delivery.stopped)
    && (s.waiting ==> s.delivery.plan != [] && |s.delivery.workers| == |s.delivery.plan|)
    // the goroutine reports once, after every edge has finished, and somebody takes that one report
    && (s.phase.Wiring? || s.phase.Reaping? ==> !s.waiting)
    && (s.phase.Selecting? || s.phase.Polling? || s.phase.Awaiting? ==> s.waiting)
    && (s.reported ==> s.waiting && Reapable(s))
    && (s.terminal.Some? ==> s.reported && s.terminal.value == D.WaitResult(s.delivery.first))
    && (s.taken ==> s.reported && s.terminal.None?)
    && (Settled(s) && s.waiting ==> s.reported)
    && (s.reported && s.terminal.None? && !Settled(s) ==> s.taken)
    && (s.taken && !Settled(s) ==> s.contextOver && (s.phase.Polling? || s.phase.Awaiting?))
    && (s.phase.Selecting? ==> !s.taken)
    // components are stopped, and the run is recorded, only once every edge has finished
    && (Settled(s) ==> Reapable(s))
    && (s.componentsStopped <==> s.phase.Deferred? || s.phase.Exited?)
    && (RecordedAs(s, Completed) ==>
          && |s.delivery.workers| == |s.delivery.plan|
          && D.WaitResult(s.delivery.first).None? && D.ForgivenOnlyByGroup(s.delivery)
          && D.UnboundedEndedByGroup(s.delivery))
    // the recorded status follows from the error, and the error from wiring or from Wait
    && (Settled(s) ==> (s.phase.status == FailedRun <==> s.phase.err.Some?))
    && (Settled(s) ==> if s.waiting then s.phase.err == D.WaitResult(s.delivery.first) else s.phase.err.Some?)
  }

  lemma InitialInv(s: State)
    requires Initial(s)
    ensures Inv(s)
  {
  }

  /** Ending the context from outside keeps the delivery invariant. */
  lemma HaltKeepsInv(d: D.State)
    requires D.GlobalInv(d)
    ensures D.GlobalInv(d.(stopped := true))
    ensures d.AllDone() ==> d.(stopped := true).AllDone()
    ensures D.ForgivenOnlyByGroup(d) ==> D.ForgivenOnlyByGroup(d.(stopped := true))
    ensures D.UnboundedEndedByGroup(d) ==> D.UnboundedEndedByGroup(d.(stopped := true))
    ensures D.Suspect(d.(stopped := true)) ==> D.Suspect(d)
    ensures D.Tainted(d) ==> D.Tainted(d.(stopped := true))
  {
    D.StepKeepsInv(d, D.Stop);
    if D.Suspect(d.(stopped := true)) {
      D.SuspectStep(d, D.Stop);
    }
  }

  /** Once every edge has finished, only streams and launches can still move. */
  lemma FinishedEdgesStayFinished(d: D.State, step: D.Step)
    requires D.CanStep(d, step) && d.AllDone() && !step.Launch?
    ensures D.Next(d, step).workers == d.workers && D.Next(d, step).first == d.first
  {
  }

  /** A worker that found the context over without an outside stop found the group's error. */
  lemma QuietMeansForgivenByGroup(d: D.State)
    requires D.GlobalInv(d) && !d.stopped
    ensures D.ForgivenOnlyByGroup(d) && D.UnboundedEndedByGroup(d)
  {
    forall i | 0 <= i < |d.workers| && d.workers[i].sawEof && D.Unbounded(d.plan[i].role) ensures d.first.Some? {
      assert D.WorkerOk(d, i);
    }
    forall i | 0 <= i < |d.workers| && d.workers[i].pc.Done? && !d.workers[i].pc.live ensures d.first.Some? {
      assert D.WorkerOk(d, i);
    }
  }

  lemma DeliverKeepsInv(s: State, step: Step)
    requires Inv(s) && CanStep(s, step) && step.Deliver?
    ensures Inv(Next(s, step))
  {
    hide D.GlobalInv, D.WorkerOk;
    D.StepKeepsInv(s.delivery, step.step);
    if Reapable(s) && !step.step.Launch? {
      FinishedEdgesStayFinished(s.delivery, step.step);
    }
  }

  lemma OutsideKeepsInv(s: State, step: Step)
    requires Inv(s) && CanStep(s, step)
             && (step.Signal? || step.CancelContext? || step.WiringDone? || step.WiringFailed?)
    ensures Inv(Next(s, step))
  {
    hide D.GlobalInv, D.ForgivenOnlyByGroup, D.UnboundedEndedByGroup, D.Suspect, D.Tainted;
    HaltKeepsInv(s.delivery);
  }

  lemma ReportKeepsInv(s: State, step: Step)
    requires Inv(s) && CanStep(s, step) && (step.Reaped? || step.Report? || step.TakeTerminal?)
    ensures Inv(Next(s, step))
  {
    hide D.GlobalInv, D.ForgivenOnlyByGroup, D.UnboundedEndedByGroup;
    if !s.delivery.stopped {
      QuietMeansForgivenByGroup(s.delivery);
    }
  }

  lemma StoppingKeepsInv(s: State, step: Step)
    requires Inv(s) && CanStep(s, step)
    requires step.TakeSignal? || step.TakeContext? || step.PollHit? || step.PollMiss? || step.TakeAwaited?
    ensures Inv(Next(s, step))
  {
    hide D.GlobalInv, D.ForgivenOnlyByGroup, D.UnboundedEndedByGroup, D.Suspect, D.Tainted;
    HaltKeepsInv(s.delivery);
  }

  lemma EndingKeepsInv(s: State, step: Step)
    requires Inv(s) && CanStep(s, step) && (step.StopComponents? || step.DeferredStop?)
    ensures Inv(Next(s, step))
  {
    hide D.GlobalInv, D.ForgivenOnlyByGroup, D.UnboundedEndedByGroup, D.Suspect, D.Tainted;
    HaltKeepsInv(s.delivery);
  }

  lemma StepKeepsInv(s: State, step: Step)
    requires Inv(s) && CanStep(s, step)
    ensures Inv(Next(s, step))
  {
    hide Inv, CanStep, Next;
    match step {
      case Deliver(_) => DeliverKeepsInv(s, step);
      case Signal => OutsideKeepsInv(s, step);
      case CancelContext => OutsideKeepsInv(s, step);
      case WiringDone => OutsideKeepsInv(s, step);
      case WiringFailed(_) => OutsideKeepsInv(s, step);
      case Reaped => ReportKeepsInv(s, step);
      case Report => ReportKeepsInv(s, step);
      case TakeTerminal => ReportKeepsInv(s, step);
      case StopComponents => EndingKeepsInv(s, step);
      case DeferredStop => EndingKeepsInv(s, step);
      case _ => StoppingKeepsInv(s, step);
    }
  }

  lemma {:induction false} EveryRun(s: State, steps: seq<Step>)
    requires Inv(s) && Possible(s, steps)
    ensures Inv(Run(s, steps))
    decreases |steps|
  {
    if steps != [] {
      StepKeepsInv(s, steps[0]);
      EveryRun(Next(s, steps[0]), steps[1..]);
    }
  }

  // ---------- What every run promises ----------

  /** However the run ends, components are stopped only when no delivery edge is alive, and stay so. */
  lemma ComponentsOutliveDelivery(s: State, steps: seq<Step>)
    requires Initial(s) && Possible(s, steps)
    ensures Run(s, steps).componentsStopped || Settled(Run(s, steps)) ==> Run(s, steps).delivery.AllDone()
    ensures CanStep(Run(s, steps), StopComponents) ==> Run(s, steps).delivery.AllDone()
  {
    InitialInv(s);
    EveryRun(s, steps);
  }

  /** At some point of the run a peer fails with Canceled while the delivery context is alive. */
  ghost predicate PeerCancelsAlong(s: State, steps: seq<Step>)
    requires Possible(s, steps)
    decreases |steps|
  {
    steps != [] &&
    ((steps[0].Deliver? && D.PeerCancels(s.delivery, steps[0].step)) || PeerCancelsAlong(Next(s, steps[0]), steps[1..]))
  }

  lemma SuspectStep(s: State, step: Step)
    requires Inv(s) && CanStep(s, step)
    ensures D.Suspect(Next(s, step).delivery) ==>
      D.Suspect(s.delivery) || (step.Deliver? && D.PeerCancels(s.delivery, step.step))
    ensures D.Tainted(s.delivery) || (step.Deliver? && D.PeerCancels(s.delivery, step.step)) ==>
      D.Tainted(Next(s, step).delivery)
  {
    hide D.GlobalInv, D.Suspect, D.Tainted, D.PeerCancels, D.CanStep, D.Next;
    if step.Deliver? {
      if D.Suspect(Next(s, step).delivery) {
        D.SuspectStep(s.delivery, step.step);
      }
      if D.Tainted(s.delivery) || D.PeerCancels(s.delivery, step.step) {
        D.TaintedStep(s.delivery, step.step);
      }
    } else {
      HaltKeepsInv(s.delivery);
    }
  }

  lemma {:induction false} SuspectAlong(s: State, steps: seq<Step>)
    requires Inv(s) && Possible(s, steps)
    ensures D.Suspect(Run(s, steps).delivery) ==> D.Suspect(s.delivery) || PeerCancelsAlong(s, steps)
    ensures D.Tainted(s.delivery) || PeerCancelsAlong(s, steps) ==> D.Tainted(Run(s, steps).delivery)
    decreases |steps|
  {
    hide D.Suspect, D.Tainted, D.PeerCancels, CanStep, Next, Inv;
    if steps != [] {
      StepKeepsInv(s, steps[0]);
      SuspectStep(s, steps[0]);
      SuspectAlong(Next(s, steps[0]), steps[1..]);
    }
  }

  /**
   A run recorded COMPLETED delivered everything - every edge saw a clean end of stream and every sink acknowledged
   exactly what it was sent - exactly if at no point of it a peer failed with Canceled while the context was alive.
   Then every source was declared bounded.
   */
  lemma CompletedMeansDeliveredIff(s: State, steps: seq<Step>)
    requires Initial(s) && Possible(s, steps) && RecordedAs(Run(s, steps), Completed)
    ensures var d := Run(s, steps).delivery;
            && d.AllDone() && (D.Delivered(d) <==> !PeerCancelsAlong(s, steps))
            && (D.Delivered(d) ==> d.WellFormed() && forall i :: 0 <= i < |d.plan| ==> !D.Unbounded(d.plan[i].role))
  {
    hide D.WorkerOk, D.CanceledWhileLive, D.Tainted, D.ForgivenOnlyByGroup;
    InitialInv(s);
    EveryRun(s, steps);
    SuspectAlong(s, steps);
    var d := Run(s, steps).delivery;
    D.NilMeansDeliveredIff(d);
    D.TaintedIsCanceledLive(d);
    if D.Delivered(d) {
      CleanMeansNoError(d);
    }
  }

  /** Where every edge ended cleanly there is no error. */
  lemma CleanMeansNoError(d: D.State)
    requires D.GlobalInv(d) && d.AllDone() && D.Delivered(d) && D.UnboundedEndedByGroup(d)
    ensures d.first.None? && forall i :: 0 <= i < |d.plan| ==> !D.Unbounded(d.plan[i].role)
  {
    forall i | 0 <= i < |d.workers| ensures d.workers[i].pc.Done? && d.workers[i].pc.err.None? {
      assert D.WorkerOk(d, i);
    }
    forall i | 0 <= i < |d.plan| ensures !D.Unbounded(d.plan[i].role) {
      assert D.DeliveryWorker.Clean(d.plan[i], d.workers[i]);
    }
  }

  /**
   A run is recorded FAILED exactly if wiring failed or Wait reports an error; a pipeline without sources or without
   sinks, for which there is no edge to launch, always is.
   */
  lemma FailedIff(s: State, steps: seq<Step>)
    requires Initial(s) && Possible(s, steps) && Settled(Run(s, steps))
    ensures var f := Run(s, steps);
            && (RecordedAs(f, FailedRun) <==> !f.waiting || D.WaitResult(f.delivery.first).Some?)
            && (f.delivery.plan == [] ==> RecordedAs(f, FailedRun))
  {
    InitialInv(s);
    EveryRun(s, steps);
  }

  /** Nobody has interrupted the run: no signal, and its context ends only with its components. */
  predicate Uninterrupted(s: State) {
    && !s.signaled && (s.contextOver ==> s.componentsStopped)
    && !s.phase.Polling? && !s.phase.Awaiting? && !RecordedAs(s, Stopped)
  }

  lemma StaysUninterrupted(s: State, step: Step)
    requires CanStep(s, step) && Uninterrupted(s) && !step.Signal? && !step.CancelContext?
    requires s.phase.Deferred? || s.phase.Exited? <==> s.componentsStopped
    ensures Uninterrupted(Next(s, step))
  {
    hide D.CanStep, D.Next;
  }

  lemma RecordedWithoutStop(s: State)
    requires Inv(s) && Settled(s) && !RecordedAs(s, Stopped)
    ensures RecordedAs(s, Completed) <==> s.waiting && D.WaitResult(s.delivery.first).None?
  {
    hide D.GlobalInv, D.ForgivenOnlyByGroup, D.UnboundedEndedByGroup;
  }

  lemma StoppedComponentsAreRecorded(s: State)
    requires Inv(s)
    ensures s.phase.Deferred? || s.phase.Exited? <==> s.componentsStopped
  {
  }

  /** Without a signal or a cancellation a run is never recorded STOPPED: it completes exactly if nothing failed. */
  lemma {:induction false} UninterruptedIsNotStopped(s: State, steps: seq<Step>)
    requires Inv(s) && Possible(s, steps) && Uninterrupted(s)
    requires forall i :: 0 <= i < |steps| ==> !steps[i].Signal? && !steps[i].CancelContext?
    ensures Uninterrupted(Run(s, steps))
    ensures var f := Run(s, steps);
            Settled(f) ==> (RecordedAs(f, Completed) <==> f.waiting && D.WaitResult(f.delivery.first).None?)
    decreases |steps|
  {
    hide Inv, CanStep, Next;
    if steps == [] {
      if Settled(s) {
        RecordedWithoutStop(s);
      }
    } else {
      StepKeepsInv(s, steps[0]);
      StoppedComponentsAreRecorded(s);
      StaysUninterrupted(s, steps[0]);
      UninterruptedIsNotStopped(Next(s, steps[0]), steps[1..]);
    }
  }

  /**
   When wiring fails, the run is recorded FAILED with the wiring error; but where that is a mere cancellation, with the
   error of the edge that failed before it, if that says more.
   */
  lemma WiringFailureBlames(s: State)
    requires CanStep(s, Reaped)
    ensures var wire, first := s.phase.wireError, s.delivery.first;
            Next(s, Reaped).phase == Recording(FailedRun, Some(
              if && (wire.cause == ContextCanceled || wire.cause == Status(Canceled))
                 && first.Some? && first.value.cause != ContextCanceled && first.value.cause != Status(Canceled)
              then first.value else wire))
  {
  }

  // ---------- An interrupted run ----------

  /** Delivery has been stopped by an interruption, and the run is not recorded COMPLETED. */
  predicate Interrupted(s: State) {
    s.delivery.stopped && !RecordedAs(s, Completed) && (Settled(s) || s.contextOver || s.phase.Awaiting?)
  }

  /** The error with which an edge leaves in this step, if launch does not forgive it. */
  function Leaving(s: State, step: Step): Option<DeliveryError>
    requires CanStep(s, step)
  {
    if step.Deliver? then LeavingEdge(s.delivery, step.step) else None
  }

  function LeavingEdge(d: D.State, step: D.Step): Option<DeliveryError>
    requires D.CanStep(d, step)
  {
    if step.Record? then D.Reported(d.workers[step.worker].pc.err, d.workers[step.worker].pc.live) else None
  }

  /** The first error with which an edge leaves unforgiven does not say Canceled. */
  ghost predicate FailsAlong(s: State, steps: seq<Step>)
    requires Possible(s, steps)
    decreases |steps|
  {
    steps != [] &&
    if Leaving(s, steps[0]).Some? then !SaysCanceled(Leaving(s, steps[0]).value.cause)
    else FailsAlong(Next(s, steps[0]), steps[1..])
  }

  lemma InterruptedStep(s: State, step: Step)
    requires Interrupted(s) && CanStep(s, step)
    ensures Interrupted(Next(s, step))
    ensures Next(s, step).delivery.first ==
            if s.delivery.first.Some? then s.delivery.first else Leaving(s, step)
  {
    hide Interrupted, CanStep, Next, Leaving;
    StaysInterrupted(s, step);
    FirstAfter(s, step);
  }

  lemma StaysInterrupted(s: State, step: Step)
    requires Interrupted(s) && CanStep(s, step)
    ensures Interrupted(Next(s, step))
  {
    hide D.CanStep;
    if step.Deliver? {
      OutsideStopStays(s.delivery, step.step);
    }
  }

  lemma OutsideStopStays(d: D.State, step: D.Step)
    requires D.CanStep(d, step) && d.stopped
    ensures D.Next(d, step).stopped
  {
    hide D.DeliveryWorker.Enabled, D.DeliveryWorker.After, D.FeedAllows;
  }

  lemma FirstAfter(s: State, step: Step)
    requires CanStep(s, step)
    ensures Next(s, step).delivery.first == if s.delivery.first.Some? then s.delivery.first else Leaving(s, step)
  {
    hide D.CanStep, D.Next, LeavingEdge;
    if step.Deliver? {
      FirstAfterDelivery(s.delivery, step.step);
    }
  }

  lemma FirstAfterDelivery(d: D.State, step: D.Step)
    requires D.CanStep(d, step)
    ensures D.Next(d, step).first == if d.first.Some? then d.first else LeavingEdge(d, step)
  {
    hide D.DeliveryWorker.Enabled, D.DeliveryWorker.After, D.FeedAllows, D.Reported;
  }

  /**
   A signal, or the end of the run context, that finds the run still waiting for delivery can always interrupt it: what
   has been reported by then decides the status, and if nothing has, delivery is stopped and awaited.
   */
  lemma InterruptionIsTaken(s: State, interruption: Step)
    requires Inv(s) && s.phase.Selecting? && (interruption == Signal || interruption == CancelContext)
    ensures var take := if interruption == Signal then TakeSignal else TakeContext;
            var steps := [interruption, take, if s.terminal.Some? then PollHit else PollMiss];
            && Possible(s, steps)
            && (s.terminal == None ==> Interrupted(Run(s, steps)) && Run(s, steps).phase == Awaiting)
            && (s.terminal == Some(None) ==> Run(s, steps).phase == Recording(Stopped, None))
            && (s.terminal.Some? && s.terminal.value.Some? ==>
                  Run(s, steps).phase == Recording(FailedRun, s.terminal.value))
  {
    hide D.CanStep, D.Next, D.GlobalInv;
    var take := if interruption == Signal then TakeSignal else TakeContext;
    var s1 := Next(s, interruption);
    var s2 := Next(s1, take);
    var poll := if s.terminal.Some? then PollHit else PollMiss;
    RunCons(s2, poll, []);
    RunCons(s1, take, [poll]);
    RunCons(s, interruption, [take, poll]);
    assert [take] + [poll] == [take, poll] && [interruption] + [take, poll] == [interruption, take, poll];
    assert [poll] + [] == [poll];
  }

  lemma {:induction false} InterruptedAlong(s: State, steps: seq<Step>)
    requires Interrupted(s) && Possible(s, steps)
    ensures Interrupted(Run(s, steps))
    ensures s.delivery.first.Some? ==> Run(s, steps).delivery.first == s.delivery.first
    ensures s.delivery.first.None? ==> (D.WaitResult(Run(s, steps).delivery.first).Some? <==> FailsAlong(s, steps))
    decreases |steps|
  {
    hide CanStep, Next, Interrupted, Leaving;
    if steps != [] {
      InterruptedStep(s, steps[0]);
      InterruptedAlong(Next(s, steps[0]), steps[1..]);
    }
  }

  /**
   The group holds no error when an interruption stops delivery: the run is recorded STOPPED, and not FAILED, exactly
   if wiring was done and the first error with which an edge then leaves unforgiven, if there is one, says Canceled.
   */
  lemma InterruptedIsStoppedIff(s: State, steps: seq<Step>)
    requires Inv(s) && Interrupted(s) && s.delivery.first.None? && Possible(s, steps) && Settled(Run(s, steps))
    ensures var f := Run(s, steps);
            && (RecordedAs(f, Stopped) <==> f.waiting && !FailsAlong(s, steps))
            && (RecordedAs(f, FailedRun) <==> !f.waiting || FailsAlong(s, steps))
  {
    hide FailsAlong, D.GlobalInv, D.ForgivenOnlyByGroup, D.UnboundedEndedByGroup;
    EveryRun(s, steps);
    InterruptedAlong(s, steps);
  }

  /** A loop fails in this step with a cause that a stop does not excuse. */
  predicate LoopFails(s: State, step: Step)
    requires CanStep(s, step)
  {
    step.Deliver? && D.FailsUnforgivably(s.delivery, step.step)
  }

  ghost predicate LoopFailsAlong(s: State, steps: seq<Step>)
    requires Possible(s, steps)
    decreases |steps|
  {
    steps != [] && (LoopFails(s, steps[0]) || LoopFailsAlong(Next(s, steps[0]), steps[1..]))
  }

  lemma JudgedStep(s: State, step: Step)
    requires Inv(s) && Interrupted(s) && CanStep(s, step) && D.Judged(s.delivery)
    ensures D.Judged(Next(s, step).delivery)
    ensures D.AnyUnforgivable(Next(s, step).delivery) <==> D.AnyUnforgivable(s.delivery) || LoopFails(s, step)
  {
    hide D.GlobalInv, D.CanStep, D.Next, D.FailsUnforgivably;
    if step.Deliver? {
      hide D.Judged, D.AnyUnforgivable;
      D.JudgedStep(s.delivery, step.step);
    }
  }

  lemma {:induction false} JudgedAlong(s: State, steps: seq<Step>)
    requires Inv(s) && Interrupted(s) && D.Judged(s.delivery) && Possible(s, steps)
    ensures D.Judged(Run(s, steps).delivery)
    ensures D.AnyUnforgivable(Run(s, steps).delivery) <==> D.AnyUnforgivable(s.delivery) || LoopFailsAlong(s, steps)
    decreases |steps|
  {
    hide Inv, CanStep, Next, Interrupted, LoopFails, D.Judged, D.AnyUnforgivable;
    if steps != [] {
      StepKeepsInv(s, steps[0]);
      InterruptedStep(s, steps[0]);
      JudgedStep(s, steps[0]);
      JudgedAlong(Next(s, steps[0]), steps[1..]);
    }
  }

  /**
   No edge has failed when an interruption stops delivery: the run is recorded STOPPED exactly if wiring was done and
   no loop fails afterwards with a cause other than Canceled and DeadlineExceeded.
   */
  lemma StoppedUnlessLoopFails(s: State, steps: seq<Step>)
    requires Inv(s) && Interrupted(s) && D.NothingFailed(s.delivery) && Possible(s, steps) && Settled(Run(s, steps))
    ensures var f := Run(s, steps);
            RecordedAs(f, Stopped) <==> f.waiting && !LoopFailsAlong(s, steps)
  {
    hide FailsAlong, LoopFailsAlong, D.AnyUnforgivable, D.GlobalInv, D.ForgivenOnlyByGroup, D.UnboundedEndedByGroup;
    EveryRun(s, steps);
    InterruptedIsStoppedIff(s, steps);
    InterruptedAlong(s, steps);
    D.NothingFailedIsJudged(s.delivery);
    JudgedAlong(s, steps);
    D.JudgedAtTheEnd(Run(s, steps).delivery);
  }

  /** The cause with which a loop fails in this step, if one does. */
  function FailureIn(s: State, step: Step): Option<Cause>
    requires CanStep(s, step)
  {
    if step.Deliver? && step.step.Work? then
      var i := step.step.worker;
      var pc := D.DeliveryWorker.After(s.delivery.plan[i], s.delivery.workers[i], step.step.act).pc;
      if pc.Returned? && pc.err.Some? then Some(pc.err.value.cause) else None
    else None
  }

  /** The causes with which loops fail along the run, in order. */
  ghost function FailuresAlong(s: State, steps: seq<Step>): seq<Cause>
    requires Possible(s, steps)
    decreases |steps|
  {
    if steps == [] then []
    else
      var first := FailureIn(s, steps[0]);
      (if first.Some? then [first.value] else []) + FailuresAlong(Next(s, steps[0]), steps[1..])
  }

  lemma LoopFailsIff(s: State, step: Step)
    requires CanStep(s, step)
    ensures LoopFails(s, step) <==>
      && FailureIn(s, step).Some?
      && FailureIn(s, step).value !in {ContextCanceled, Status(Canceled), Status(DeadlineExceeded)}
  {
    if step.Deliver? && step.step.Work? {
      var i := step.step.worker;
      D.ActReceives(s.delivery.plan[i], s.delivery.workers[i], step.step.act);
    }
  }

  /** Some cause is neither a cancellation nor a deadline status. */
  predicate SomeUnforgiven(cs: seq<Cause>) {
    exists i :: 0 <= i < |cs| && cs[i] !in {ContextCanceled, Status(Canceled), Status(DeadlineExceeded)}
  }

  lemma UnforgivenFirstOrLater(first: Option<Cause>, rest: seq<Cause>)
    ensures !SomeUnforgiven([])
    ensures SomeUnforgiven((if first.Some? then [first.value] else []) + rest) <==>
            || (first.Some? && first.value !in {ContextCanceled, Status(Canceled), Status(DeadlineExceeded)})
            || SomeUnforgiven(rest)
  {
    if first.Some? {
      var all := [first.value] + rest;
      assert all[0] == first.value && forall i :: 0 <= i < |rest| ==> rest[i] == all[i + 1];
    } else {
      assert [] + rest == rest;
    }
  }

  lemma {:induction false} LoopFailsAlongIff(s: State, steps: seq<Step>)
    requires Possible(s, steps)
    ensures LoopFailsAlong(s, steps) <==> SomeUnforgiven(FailuresAlong(s, steps))
    decreases |steps|
  {
    hide CanStep, Next, LoopFails, FailureIn, SomeUnforgiven;
    if steps == [] {
      UnforgivenFirstOrLater(None, []);
    } else {
      LoopFailsIff(s, steps[0]);
      LoopFailsAlongIff(Next(s, steps[0]), steps[1..]);
      UnforgivenFirstOrLater(FailureIn(s, steps[0]), FailuresAlong(Next(s, steps[0]), steps[1..]));
    }
  }

  lemma ByCause(cs: seq<Cause>)
    ensures (forall c :: c in cs ==> c == ContextCanceled || c == Status(Canceled) || c == Status(DeadlineExceeded)) ==>
      !SomeUnforgiven(cs)
    ensures (exists c :: c in cs &&
               (|| c == ContextDeadlineExceeded || c == EndOfFile || c == UnexpectedEof || c == MissingResponse
                || c == Miscounted || c == Status(Unknown) || (c.Status? && c.code.Other?))) ==>
      SomeUnforgiven(cs)
  {
    if i :| 0 <= i < |cs| && cs[i] !in {ContextCanceled, Status(Canceled), Status(DeadlineExceeded)} {
      assert cs[i] in cs;
    } else {
      forall c | c in cs ensures c in {ContextCanceled, Status(Canceled), Status(DeadlineExceeded)} {
        var i :| 0 <= i < |cs| && cs[i] == c;
      }
    }
  }

  /**
   Cause by cause: no edge has failed when an interruption stops delivery, and wiring was done. If every loop that fails
   afterwards does so with a cancellation or a deadline status, the run is recorded STOPPED; if one fails with anything
   else, such as end-of-file or the context's own deadline, it is recorded FAILED.
   */
  lemma InterruptedByCause(s: State, steps: seq<Step>)
    requires Inv(s) && Interrupted(s) && D.NothingFailed(s.delivery) && Possible(s, steps)
    requires Settled(Run(s, steps)) && Run(s, steps).waiting
    ensures (forall c :: c in FailuresAlong(s, steps) ==>
               c == ContextCanceled || c == Status(Canceled) || c == Status(DeadlineExceeded)) ==>
      Run(s, steps).phase.status == Stopped
    ensures (exists c :: c in FailuresAlong(s, steps) &&
               (|| c == ContextDeadlineExceeded || c == EndOfFile || c == UnexpectedEof || c == MissingResponse
                || c == Miscounted || c == Status(Unknown) || (c.Status? && c.code.Other?))) ==>
      Run(s, steps).phase.status == FailedRun
  {
    hide LoopFailsAlong, FailuresAlong, SomeUnforgiven, D.AnyUnforgivable, D.GlobalInv;
    EveryRun(s, steps);
    StoppedUnlessLoopFails(s, steps);
    LoopFailsAlongIff(s, steps);
    ByCause(FailuresAlong(s, steps));
    InterruptedAlong(s, steps);
  }

  // ---------- Progress ----------

  /** Steps that are not the run's to take: an operator, or a component writing to its stream. */
  predicate Outside(step: Step) {
    step.Signal? || step.CancelContext? || (step.Deliver? && (step.step.Emit? || step.step.End?))
  }

  /** Nothing but the outside can move. */
  ghost predicate Stuck(s: State) {
    forall step {:trigger CanStep(s, step)} :: CanStep(s, step) ==> Outside(step)
  }

  /** The only terminal value was consumed by the first select, and a second one is awaited. */
  predicate AwaitsSecondReport(s: State) {
    s.phase.Awaiting? && s.taken
  }

  /** How many more actions an edge takes at most to be done, if its peers give up. */
  function EdgeLeft(e: Edge, w: D.DeliveryWorker.Worker): nat {
    match w.pc
    case Receiving => 3
    case Sending(_, n) => 4 + (if n < |e.targets| then |e.targets| - n else 0)
    case Closing(_) => 3
    case Returned(_) => 2
    case Decided(_, _) => 1
    case Done(_, _) => 0
  }

  function EdgesLeft(plan: seq<Edge>, workers: seq<D.DeliveryWorker.Worker>): nat
    requires |workers| <= |plan|
  {
    if workers == [] then 0
    else
      var n := |workers| - 1;
      EdgesLeft(plan, workers[..n]) + EdgeLeft(plan[n], workers[n])
  }

  lemma {:induction false} EdgesLeftUpdate(plan: seq<Edge>, workers: seq<D.DeliveryWorker.Worker>, i: nat,
      w: D.DeliveryWorker.Worker)
    requires |workers| <= |plan| && i < |workers|
    ensures EdgesLeft(plan, workers[i := w]) + EdgeLeft(plan[i], workers[i]) ==
            EdgesLeft(plan, workers) + EdgeLeft(plan[i], w)
    decreases |workers|
  {
    var n := |workers| - 1;
    if i == n {
      assert workers[i := w][..n] == workers[..n];
    } else {
      assert workers[i := w][..n] == workers[..n][i := w];
      EdgesLeftUpdate(plan, workers[..n], i, w);
    }
  }

  /** An edge that has not finished can always come nearer to its end: a peer can fail, an exit can be recorded. */
  lemma LiveEdgeCanMove(d: D.State, i: nat) returns (step: D.Step)
    requires D.GlobalInv(d) && i < |d.workers| && !d.workers[i].pc.Done?
    ensures D.CanStep(d, step) && (step.Work? || step.Decide? || step.Record?)
    ensures var t := D.Next(d, step);
            && t.plan == d.plan && |t.workers| == |d.workers| && t.WellFormed()
            && EdgesLeft(t.plan, t.workers) < EdgesLeft(d.plan, d.workers)
  {
    hide D.WorkerOk, EdgesLeft;
    step := EdgeStep(d, i);
    var t := D.Next(d, step);
    EdgesLeftUpdate(d.plan, d.workers, i, t.workers[i]);
  }

  lemma EdgeStep(d: D.State, i: nat) returns (step: D.Step)
    requires D.GlobalInv(d) && i < |d.workers| && !d.workers[i].pc.Done?
    ensures D.CanStep(d, step) && (step.Work? || step.Decide? || step.Record?)
    ensures var t := D.Next(d, step);
            && t.plan == d.plan && |t.workers| == |d.workers| && t.workers == d.workers[i := t.workers[i]]
            && EdgeLeft(d.plan[i], t.workers[i]) < EdgeLeft(d.plan[i], d.workers[i])
  {
    hide D.DeliveryWorker.Enabled, D.DeliveryWorker.After, D.DeliveryWorker.Inv, EdgeLeft, D.Unbounded, D.InStep;
    assert D.WorkerOk(d, i);
    var edge, w := d.plan[i], d.workers[i];
    if w.pc.Returned? {
      step := D.Decide(i);
      LateStagesComeNearer(edge, w);
    } else if w.pc.Decided? {
      step := D.Record(i);
      LateStagesComeNearer(edge, w);
    } else {
      var a := LoopCanMove(edge, w);
      step := D.Work(i, a);
    }
  }

  /** A loop that has not returned can pass over a target or see its peer fail. */
  lemma LoopCanMove(edge: Edge, w: D.DeliveryWorker.Worker) returns (a: D.DeliveryWorker.Act)
    requires D.DeliveryWorker.Inv(edge, w) && (w.pc.Receiving? || w.pc.Sending? || w.pc.Closing?)
    ensures a.GotError? || a.SendFailed? || a.Skip? || a.CloseFailed?
    ensures D.DeliveryWorker.Enabled(edge, w, a)
    ensures EdgeLeft(edge, D.DeliveryWorker.After(edge, w, a)) < EdgeLeft(edge, w)
  {
    hide Takes, Due;
    var gone := Status(Other(14));
    match w.pc {
      case Receiving => a := D.DeliveryWorker.GotError(gone);
      case Sending(event, n) =>
        a := if Takes(edge.targets[n], event) then D.DeliveryWorker.SendFailed(gone, None) else D.DeliveryWorker.Skip;
      case Closing(_) => a := D.DeliveryWorker.CloseFailed(gone);
    }
  }

  lemma LateStagesComeNearer(edge: Edge, w: D.DeliveryWorker.Worker)
    ensures w.pc.Returned? ==>
      forall live :: EdgeLeft(edge, w.(pc := D.DeliveryWorker.Decided(w.pc.err, live))) < EdgeLeft(edge, w)
    ensures w.pc.Decided? ==> EdgeLeft(edge, w.(pc := D.DeliveryWorker.Done(w.pc.err, w.pc.live))) < EdgeLeft(edge, w)
  {
  }

  /** The first select consumed the only report with the context over. */
  predicate Doomed(s: State) {
    s.taken && !Settled(s)
  }

  function PhaseIndex(p: Phase): nat {
    match p
    case Wiring => 6
    case Selecting => 5
    case Polling => 4
    case Awaiting => 3
    case Reaping(_) => 3
    case Recording(_, _) => 2
    case Deferred(_, _) => 1
    case Exited(_, _) => 0
  }

  /** A run that is not doomed has a step of its own that keeps it so and brings it nearer to its exit. */
  lemma CanComeNearer(s: State) returns (step: Step)
    requires Inv(s) && !s.phase.Exited? && !Doomed(s)
    ensures CanStep(s, step) && !Outside(step) && !Doomed(Next(s, step))
    ensures Inv(Next(s, step)) && Nearer(s, Next(s, step))
  {
    hide Inv, CanStep, Next, Nearer;
    if s.phase.Wiring? {
      step := WiringComesNearer(s);
    } else if !Reapable(s) {
      step := EdgesComeNearer(s);
    } else {
      step := PhaseComesNearer(s);
    }
    StepKeepsInv(s, step);
  }

  lemma WiringComesNearer(s: State) returns (step: Step)
    requires Inv(s) && s.phase.Wiring? && !Doomed(s)
    ensures CanStep(s, step) && !Outside(step) && !Doomed(Next(s, step)) && Nearer(s, Next(s, step))
  {
    hide D.WorkerOk, EdgesLeft;
    step := if |s.delivery.workers| < |s.delivery.plan| then Deliver(D.Launch)
            else if s.delivery.plan != [] then WiringDone
            else WiringFailed(DeliveryError("", "", SourceSink, Registration, None, Status(Unknown)));
  }

  lemma EdgesComeNearer(s: State) returns (step: Step)
    requires Inv(s) && !s.phase.Wiring? && !Reapable(s) && !Doomed(s)
    ensures CanStep(s, step) && !Outside(step) && !Doomed(Next(s, step)) && Nearer(s, Next(s, step))
  {
    hide D.WorkerOk, EdgesLeft, D.Next, D.CanStep;
    var i :| 0 <= i < |s.delivery.workers| && !s.delivery.workers[i].pc.Done?;
    var d := LiveEdgeCanMove(s.delivery, i);
    step := Deliver(d);
  }

  lemma PhaseComesNearer(s: State) returns (step: Step)
    requires Inv(s) && !s.phase.Wiring? && !s.phase.Exited? && Reapable(s) && !Doomed(s)
    ensures CanStep(s, step) && !Outside(step) && !Doomed(Next(s, step)) && Nearer(s, Next(s, step))
  {
    hide D.WorkerOk, D.ForgivenOnlyByGroup, D.UnboundedEndedByGroup, EdgesLeft, D.CanStep, D.Next;
    step := match s.phase
      case Reaping(_) => Reaped
      case Selecting =>
        if !s.reported then Report else if s.terminal.value.None? && s.contextOver then TakeContext else TakeTerminal
      case Polling => if s.terminal.Some? then PollHit else PollMiss
      case Awaiting => if s.reported then TakeAwaited else Report
      case Recording(_, _) => StopComponents
      case _ => DeferredStop;
  }

  /** Nearer to the exit: a later phase, or more edges launched, or less work left for them, or the result reported. */
  predicate Nearer(s: State, t: State) {
    && s.delivery.WellFormed() && t.delivery.WellFormed()
    && (|| PhaseIndex(t.phase) < PhaseIndex(s.phase)
        || (PhaseIndex(t.phase) == PhaseIndex(s.phase)
            && (|| Unlaunched(t) < Unlaunched(s)
                || (Unlaunched(t) == Unlaunched(s)
                    && (|| WorkLeft(t) < WorkLeft(s)
                        || (WorkLeft(t) == WorkLeft(s) && !s.reported && t.reported))))))
  }

  function Unlaunched(s: State): nat
    requires s.delivery.WellFormed()
  {
    |s.delivery.plan| - |s.delivery.workers|
  }

  function WorkLeft(s: State): nat
    requires s.delivery.WellFormed()
  {
    EdgesLeft(s.delivery.plan, s.delivery.workers)
  }

  lemma {:induction false} ComesToItsExit(s: State) returns (steps: seq<Step>)
    requires Inv(s) && !Doomed(s)
    ensures Possible(s, steps) && Run(s, steps).phase.Exited? && forall i :: 0 <= i < |steps| ==> !Outside(steps[i])
    decreases PhaseIndex(s.phase), Unlaunched(s), WorkLeft(s), if s.reported then 0 else 1
  {
    hide CanStep, Next, Doomed, Unlaunched, WorkLeft, PhaseIndex;
    if s.phase.Exited? {
      steps := [];
    } else {
      var step := CanComeNearer(s);
      var rest := ComesToItsExit(Next(s, step));
      RunCons(s, step, rest);
      steps := [step] + rest;
    }
  }

  /** Some continuation by the run's own steps reaches the exit. */
  ghost predicate CanExit(s: State) {
    exists steps ::
      Possible(s, steps) && Run(s, steps).phase.Exited? && forall i :: 0 <= i < |steps| ==> !Outside(steps[i])
  }

  /** From every reachable state the run can come to its exit by itself, unless it is doomed; then nothing helps. */
  lemma CanExitIff(s: State)
    requires Inv(s)
    ensures CanExit(s) <==> !Doomed(s)
  {
    hide Inv;
    if !Doomed(s) {
      var steps := ComesToItsExit(s);
    } else if CanExit(s) {
      var steps :| Possible(s, steps) && Run(s, steps).phase.Exited?;
      SecondReportNeverComes(s, steps);
    }
  }

  lemma CanMove(s: State) returns (step: Step)
    requires Inv(s) && !s.phase.Exited? && !AwaitsSecondReport(s)
    ensures CanStep(s, step) && !Outside(step)
  {
    hide D.GlobalInv, D.CanStep, D.Next;
    if Doomed(s) {
      step := PollMiss;
    } else {
      step := CanComeNearer(s);
    }
  }

  /** In every reachable state the run can move on, except once it has exited or when it awaits a second report. */
  lemma StuckIff(s: State)
    requires Inv(s)
    ensures Stuck(s) <==> s.phase.Exited? || AwaitsSecondReport(s)
  {
    if !s.phase.Exited? && !AwaitsSecondReport(s) {
      var step := CanMove(s);
    }
  }

  /** The deadlock comes about exactly when the first select takes a nil result with the context already over. */
  lemma SecondReportIff(s: State, step: Step)
    requires Inv(s) && !s.taken && CanStep(s, step)
    ensures var s' := Next(s, step);
            Doomed(s') <==> step == TakeTerminal && s.terminal == Some(None) && s.contextOver
  {
    hide Inv, D.CanStep, D.Next;
  }

  /** From there on no run ever leaves: not by a signal, not by a cancellation. */
  lemma {:induction false} SecondReportNeverComes(s: State, steps: seq<Step>)
    requires Inv(s) && s.taken && !Settled(s) && Possible(s, steps)
    ensures Run(s, steps).taken && !Settled(Run(s, steps))
    decreases |steps|
  {
    if steps != [] {
      StepKeepsInv(s, steps[0]);
      SecondReportNeverComes(Next(s, steps[0]), steps[1..]);
    }
  }

  // ---------- The deadlock is reachable ----------

  lemma RunCons(s: State, step: Step, rest: seq<Step>)
    requires CanStep(s, step) && Possible(Next(s, step), rest)
    ensures Possible(s, [step] + rest) && Run(s, [step] + rest) == Run(Next(s, step), rest)
  {
    assert ([step] + rest)[1..] == rest;
  }

  /** A finite source and a sink; the source has nothing to send. */
  function QuietPipeline(): State {
    State(D.OneSourceOneSink(), Wiring, false, false, false, false, None, false, false)
  }

  /** Its edge after `n` of the six actions from launch to a recorded nil. */
  function QuietWorker(n: nat): D.DeliveryWorker.Worker {
    D.DeliveryWorker.Worker(
      if n < 3 then D.DeliveryWorker.Receiving
      else if n == 3 then D.DeliveryWorker.Closing(0)
      else if n == 4 then D.DeliveryWorker.Returned(None)
      else if n == 5 then D.DeliveryWorker.Decided(None, true)
      else D.DeliveryWorker.Done(None, true),
      [], n >= 3, [[]], if n >= 4 then [D.DeliveryWorker.ExactAck(0)] else [])
  }

  function QuietState(n: nat): State {
    var d := D.OneSourceOneSink();
    QuietPipeline().(delivery := d.(
      workers := if n == 0 then [] else [QuietWorker(n)],
      feeds := if n >= 2 then [D.Feed([], true), D.Feed([], false)] else d.feeds))
  }

  function QuietStep(n: nat): Step {
    Deliver(if n == 0 then D.Launch
            else if n == 1 then D.End(0)
            else if n == 2 then D.Work(0, D.DeliveryWorker.GotEof(true))
            else if n == 3 then D.Work(0, D.DeliveryWorker.Closed(D.DeliveryWorker.ExactAck(0)))
            else if n == 4 then D.Decide(0)
            else D.Record(0))
  }

  lemma QuietStepWorks(n: nat)
    requires n < 6
    ensures CanStep(QuietState(n), QuietStep(n)) && Next(QuietState(n), QuietStep(n)) == QuietState(n + 1)
  {
    assert D.DeliveryWorker.Start(D.OneSourceOneSink().plan[0]).sent == [[]];
    var s, s' := Next(QuietState(n), QuietStep(n)).delivery, QuietState(n + 1).delivery;
    assert s.feeds == s'.feeds;
    if n > 0 {
      assert s.workers[0] == s'.workers[0];
    }
    assert s.workers == s'.workers;
  }

  /** Delivery completes, wiring is done, and the goroutine reports nil; then an operator's Stop cancels the context. */
  lemma StopAtCompletion()
    ensures var steps := [WiringDone] + ([Report] + ([CancelContext] + ([TakeTerminal] + ([PollMiss] + []))));
            Possible(QuietState(6), steps) && AwaitsSecondReport(Run(QuietState(6), steps))
  {
    var s7 := Next(QuietState(6), WiringDone);
    var s8 := Next(s7, Report);
    var s9 := Next(s8, CancelContext);
    var s10 := Next(s9, TakeTerminal);
    RunCons(s10, PollMiss, []);
    RunCons(s9, TakeTerminal, [PollMiss] + []);
    RunCons(s8, CancelContext, [TakeTerminal] + ([PollMiss] + []));
    RunCons(s7, Report, [CancelContext] + ([TakeTerminal] + ([PollMiss] + [])));
    RunCons(QuietState(6), WiringDone, [Report] + ([CancelContext] + ([TakeTerminal] + ([PollMiss] + []))));
  }

  lemma {:induction false} QuietPrefix(n: nat, rest: seq<Step>) returns (steps: seq<Step>)
    requires n <= 6 && Possible(QuietState(n), rest)
    ensures Possible(QuietState(0), steps) && Run(QuietState(0), steps) == Run(QuietState(n), rest)
  {
    hide QuietState, QuietStep, CanStep, Next;
    if n == 0 {
      steps := rest;
    } else {
      QuietStepWorks(n - 1);
      RunCons(QuietState(n - 1), QuietStep(n - 1), rest);
      steps := QuietPrefix(n - 1, [QuietStep(n - 1)] + rest);
    }
  }

  /** The deadlock is reachable: delivery completes, and an operator's Stop arrives before Run looks at the result. */
  lemma DeadlockIsReachable() returns (steps: seq<Step>)
    ensures Initial(QuietPipeline()) && Possible(QuietPipeline(), steps)
    ensures AwaitsSecondReport(Run(QuietPipeline(), steps))
  {
    StopAtCompletion();
    steps := QuietPrefix(6, [WiringDone] + ([Report] + ([CancelContext] + ([TakeTerminal] + ([PollMiss] + [])))));
    assert QuietState(0) == QuietPipeline();
  }
}
