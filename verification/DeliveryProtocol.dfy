/**
 All forwarding edges of one run, interleaved arbitrarily. Every component is an arbitrary peer: it emits events and
 ends its stream when it likes, and any operation may fail with any cause. The group records the first
 unforgiven error and ends the context; the context may also be ended from outside at any time.
 */
module DeliveryProtocol {
  import opened Wrappers
  import opened Transport
  import opened DeliveryWorker

  /** The receiving side of a stream: what its component wrote, and whether it has finished writing. */
  datatype Feed = Feed(emitted: seq<Event>, ended: bool)

  /**
   `plan` lists the edges wiring would launch, in order; `workers` are those launched so far.
   `stopped`: the context was ended from outside the group. `first`: the error the group holds.
   */
  datatype State = State(
    plan: seq<Edge>, workers: seq<Worker>, feeds: seq<Feed>, stopped: bool, first: Option<DeliveryError>)
  {
    /** `s.ctx.Err() != nil`. (Once the group has been waited for it is over too, but then nobody looks any more.) */
    predicate Over() {
      stopped || first.Some?
    }

    predicate AllDone() {
      forall i :: 0 <= i < |workers| ==> workers[i].pc.Done?
    }

    predicate WellFormed() {
      && |workers| <= |plan|
      && forall i :: 0 <= i < |plan| ==> plan[i].from < |feeds|
    }
  }

  datatype Step =
    | Launch
    | Stop
    | Emit(feed: nat, event: Event)
    | End(feed: nat)
    | Work(worker: nat, act: Act)
    | Decide(worker: nat)
    | Record(worker: nat)

  /** What `launch` hands to the group: a worker's own error is forgiven only if the context was already over. */
  function Reported(err: Option<DeliveryError>, live: bool): Option<DeliveryError> {
    if err.Some? && !live && Forgivable(err.value.cause) then None else err
  }

  /** What `Wait` returns for the error the group holds. */
  function WaitResult(first: Option<DeliveryError>): Option<DeliveryError> {
    if first.Some? && SaysCanceled(first.value.cause) then None else first
  }

  /** A stream delivers its events in order, and end-of-file only after all of them. */
  predicate FeedAllows(s: State, i: nat, a: Act)
    requires s.WellFormed() && i < |s.workers|
  {
    var feed := s.feeds[s.plan[i].from];
    var taken := s.workers[i].received;
    match a
    case GotEvent(e) => |taken| < |feed.emitted| && feed.emitted[|taken|] == e
    case GotEof(live) => feed.ended && |taken| == |feed.emitted| && live == !s.Over()
    case _ => true
  }

  predicate CanStep(s: State, step: Step)
  {
    && s.WellFormed()
    && match step
       case Launch => |s.workers| < |s.plan|
       case Stop => true
       case Emit(f, _) => f < |s.feeds| && !s.feeds[f].ended
       case End(f) => f < |s.feeds| && !s.feeds[f].ended
       case Work(i, a) => i < |s.workers| && Enabled(s.plan[i], s.workers[i], a) && FeedAllows(s, i, a)
       case Decide(i) => i < |s.workers| && s.workers[i].pc.Returned?
       case Record(i) => i < |s.workers| && s.workers[i].pc.Decided?
  }

  function Next(s: State, step: Step): State
    requires CanStep(s, step)
  {
    match step
    case Launch => s.(workers := s.workers + [Start(s.plan[|s.workers|])])
    case Stop => s.(stopped := true)
    case Emit(f, e) => s.(feeds := s.feeds[f := s.feeds[f].(emitted := s.feeds[f].emitted + [e])])
    case End(f) => s.(feeds := s.feeds[f := s.feeds[f].(ended := true)])
    case Work(i, a) => s.(workers := s.workers[i := After(s.plan[i], s.workers[i], a)])
    case Decide(i) =>
      var w := s.workers[i];
      s.(workers := s.workers[i := w.(pc := Decided(w.pc.err, !s.Over()))])
    case Record(i) =>
      var w := s.workers[i];
      var reported := Reported(w.pc.err, w.pc.live);
      s.(workers := s.workers[i := w.(pc := Done(w.pc.err, w.pc.live))],
         first := if s.first.None? then reported else s.first)
  }

  /** Before anything is launched. */
  predicate Initial(s: State) {
    s.WellFormed() && s.workers == [] && !s.stopped && s.first.None?
  }

  ghost predicate Possible(s: State, steps: seq<Step>)
    decreases |steps|
  {
    steps == [] || (CanStep(s, steps[0]) && Possible(Next(s, steps[0]), steps[1..]))
  }

  ghost function Run(s: State, steps: seq<Step>): State
    requires Possible(s, steps)
    decreases |steps|
  {
    if steps == [] then s else Run(Next(s, steps[0]), steps[1..])
  }

  // ---------- Invariants of every interleaving ----------

  /** A worker has received a prefix of what its feed emitted, and saw end-of-file only at its end. */
  predicate InStep(feed: Feed, w: Worker) {
    && w.received <= feed.emitted
    && (w.sawEof ==> feed.ended && w.received == feed.emitted)
  }

  predicate Unbounded(r: Role) {
    r == ForwardSource(false) || r == FanOutSource(false)
  }

  predicate WorkerOk(s: State, i: nat)
    requires s.WellFormed() && i < |s.workers|
  {
    var w := s.workers[i];
    && Inv(s.plan[i], w)
    && InStep(s.feeds[s.plan[i].from], w)
    // an unbounded source may only end once the context is over
    && (w.sawEof && Unbounded(s.plan[i].role) ==> s.Over())
    // a worker that found the context over was right
    && ((w.pc.Decided? || w.pc.Done?) && !w.pc.live ==> s.Over())
    // an unforgiven error that has been recorded left its mark on the group
    && (w.pc.Done? && Reported(w.pc.err, w.pc.live).Some? ==> s.first.Some?)
  }

  /** The error the group holds is some worker's own error, unforgiven. */
  predicate FirstIsGenuine(s: State) {
    s.first.Some? ==>
      exists i :: 0 <= i < |s.workers| && s.workers[i].pc.Done?
                  && s.workers[i].pc.err == s.first && Reported(s.first, s.workers[i].pc.live) == s.first
  }

  predicate GlobalInv(s: State) {
    s.WellFormed() && (forall i :: 0 <= i < |s.workers| ==> WorkerOk(s, i)) && FirstIsGenuine(s)
  }

  lemma InitialInv(s: State)
    requires Initial(s)
    ensures GlobalInv(s)
  {
  }

  lemma FeedGrowthKeepsWorker(s: State, step: Step, i: nat)
    requires GlobalInv(s) && CanStep(s, step) && (step.Emit? || step.End?) && i < |s.workers|
    ensures WorkerOk(Next(s, step), i)
  {
    assert WorkerOk(s, i);
  }

  /** What an action does to what was received, and to what is known of the stream's end. */
  lemma ActReceives(edge: Edge, w: Worker, a: Act)
    requires Enabled(edge, w, a)
    ensures var w' := After(edge, w, a);
            && w'.received == (if a.GotEvent? then w.received + [a.event] else w.received)
            && (w'.sawEof ==> w.sawEof || (a.GotEof? && (Unbounded(edge.role) ==> !a.live)))
            && !w'.pc.Decided? && !w'.pc.Done?
  {
    hide Takes, CloseFault, SendCause;
  }

  lemma WorkKeepsWorker(s: State, step: Step)
    requires GlobalInv(s) && CanStep(s, step) && step.Work?
    ensures WorkerOk(Next(s, step), step.worker)
  {
    hide Inv, After, Enabled, Reported;
    var i := step.worker;
    assert WorkerOk(s, i);
    ActReceives(s.plan[i], s.workers[i], step.act);
    ActKeepsInv(s.plan[i], s.workers[i], step.act);
  }

  lemma ExitKeepsWorker(s: State, step: Step)
    requires GlobalInv(s) && CanStep(s, step) && (step.Decide? || step.Record?)
    ensures WorkerOk(Next(s, step), step.worker)
  {
    assert WorkerOk(s, step.worker);
  }

  lemma StepKeepsGenuine(s: State, step: Step)
    requires GlobalInv(s) && CanStep(s, step)
    ensures FirstIsGenuine(Next(s, step))
  {
    var s' := Next(s, step);
    if s'.first.Some? {
      if s.first.Some? {
        var i :| 0 <= i < |s.workers| && s.workers[i].pc.Done?
                 && s.workers[i].pc.err == s.first && Reported(s.first, s.workers[i].pc.live) == s.first;
        assert s'.workers[i] == s.workers[i];
      } else {
        assert s'.workers[step.worker].pc.err == s'.first;
      }
    }
  }

  lemma StepKeepsInv(s: State, step: Step)
    requires GlobalInv(s) && CanStep(s, step)
    ensures GlobalInv(Next(s, step))
  {
    var s' := Next(s, step);
    StepKeepsGenuine(s, step);
    forall i: nat | i < |s'.workers| ensures WorkerOk(s', i) {
      if i < |s.workers| {
        assert WorkerOk(s, i);
      }
      match step {
        case Emit(_, _) => FeedGrowthKeepsWorker(s, step, i);
        case End(_) => FeedGrowthKeepsWorker(s, step, i);
        case Work(j, _) => if i == j { WorkKeepsWorker(s, step); }
        case Decide(j) => if i == j { ExitKeepsWorker(s, step); }
        case Record(j) => if i == j { ExitKeepsWorker(s, step); }
        case Launch => StartInv(s.plan[i]);
        case Stop =>
      }
    }
  }

  /**
   In every interleaving, what each edge received is a prefix of what its upstream emitted, what it sent each
   target is what that target is due, in order, and only the event in hand may still be on its way.
   */
  lemma {:induction false} EveryInterleaving(s: State, steps: seq<Step>)
    requires GlobalInv(s) && Possible(s, steps)
    ensures GlobalInv(Run(s, steps)) && Run(s, steps).plan == s.plan
    ensures forall i :: 0 <= i < |Run(s, steps).workers| ==>
      AtMostOneInHand(s.plan[i], Run(s, steps).workers[i])
      && Run(s, steps).workers[i].received <= Run(s, steps).feeds[s.plan[i].from].emitted
    decreases |steps|
  {
    if steps == [] {
      forall i | 0 <= i < |s.workers|
        ensures AtMostOneInHand(s.plan[i], s.workers[i]) && InStep(s.feeds[s.plan[i].from], s.workers[i])
      {
        assert WorkerOk(s, i);
        InvMeansAtMostOneInHand(s.plan[i], s.workers[i]);
      }
    } else {
      StepKeepsInv(s, steps[0]);
      EveryInterleaving(Next(s, steps[0]), steps[1..]);
    }
  }

  // ---------- The first error ----------

  /** The first unforgiven error recorded along a run. */
  ghost function FirstRecorded(s: State, steps: seq<Step>): Option<DeliveryError>
    requires Possible(s, steps)
    decreases |steps|
  {
    if steps == [] then None
    else if steps[0].Record? && Reported(s.workers[steps[0].worker].pc.err, s.workers[steps[0].worker].pc.live).Some?
    then Reported(s.workers[steps[0].worker].pc.err, s.workers[steps[0].worker].pc.live)
    else FirstRecorded(Next(s, steps[0]), steps[1..])
  }

  /** The group's error is the first unforgiven one of the run, and nothing later displaces it. */
  lemma {:induction false} FirstErrorWins(s: State, steps: seq<Step>)
    requires Possible(s, steps)
    ensures Run(s, steps).first == if s.first.Some? then s.first else FirstRecorded(s, steps)
    ensures s.Over() ==> Run(s, steps).Over()
    decreases |steps|
  {
    if steps != [] {
      FirstErrorWins(Next(s, steps[0]), steps[1..]);
    }
  }

  /**
   A worker's own error is dropped only if the context was already over and the error says Canceled or
   DeadlineExceeded.
   */
  lemma ForgivenOnlyAfterTheEnd(s: State, i: nat)
    requires GlobalInv(s) && i < |s.workers| && s.workers[i].pc.Done? && s.workers[i].pc.err.Some?
    ensures var pc := s.workers[i].pc;
            Reported(pc.err, pc.live).None? <==>
              && !pc.live
              && pc.err.value.cause in {ContextCanceled, Status(Canceled), Status(DeadlineExceeded)}
    ensures !s.workers[i].pc.live ==> s.stopped || s.first.Some?
    ensures Reported(s.workers[i].pc.err, s.workers[i].pc.live).Some? ==> s.first.Some?
  {
    assert WorkerOk(s, i);
  }

  /** Wait drops a first error exactly if it says Canceled, as a context or as a gRPC status. */
  lemma WaitDropsCanceled(first: Option<DeliveryError>)
    ensures WaitResult(first).None? <==>
      first.None? || first.value.cause == ContextCanceled || first.value.cause == Status(Canceled)
    ensures WaitResult(first).Some? ==> WaitResult(first) == first
  {
  }

  // ---------- What a nil result of Wait is worth ----------

  /** Some edge left with an error saying Canceled while the context was still alive. */
  predicate CanceledWhileLive(s: State) {
    exists i :: 0 <= i < |s.workers| && s.workers[i].pc.Done? && s.workers[i].pc.live
                && s.workers[i].pc.err.Some? && SaysCanceled(s.workers[i].pc.err.value.cause)
  }

  /** Every edge of the plan ran, saw a clean end of stream, sent everything it received and closed its targets. */
  predicate Delivered(s: State) {
    && |s.workers| == |s.plan| && s.WellFormed()
    && forall i :: 0 <= i < |s.workers| ==>
         && Clean(s.plan[i], s.workers[i])
         && s.feeds[s.plan[i].from].ended
         && s.workers[i].received == s.feeds[s.plan[i].from].emitted
  }

  /** A worker was forgiven only because the group already held an error (nothing ended the context from outside). */
  predicate ForgivenOnlyByGroup(s: State) {
    forall i :: 0 <= i < |s.workers| && s.workers[i].pc.Done? && !s.workers[i].pc.live ==> s.first.Some?
  }

  /** An unbounded source has ended only because the group already held an error. */
  predicate UnboundedEndedByGroup(s: State)
    requires s.WellFormed()
  {
    forall i :: 0 <= i < |s.workers| && s.workers[i].sawEof && Unbounded(s.plan[i].role) ==> s.first.Some?
  }

  /**
   When all edges have run and Wait returns nil without an outside stop, delivery was complete exactly if no peer
   failed with Canceled while the context was alive: Wait takes such a first error for a cancellation.
   */
  lemma NilMeansDeliveredIff(s: State)
    requires GlobalInv(s) && |s.workers| == |s.plan| && s.AllDone() && ForgivenOnlyByGroup(s)
    requires WaitResult(s.first).None?
    ensures Delivered(s) <==> !CanceledWhileLive(s)
  {
    forall i | 0 <= i < |s.workers| ensures WorkerOk(s, i) && s.workers[i].pc.Done? {
    }
    if !CanceledWhileLive(s) {
      assert s.first.None?;
      forall i | 0 <= i < |s.workers|
        ensures Clean(s.plan[i], s.workers[i]) && InStep(s.feeds[s.plan[i].from], s.workers[i])
      {
        assert WorkerOk(s, i);
      }
    }
  }

  // ---------- What peers did along the run ----------

  /** In this step a peer fails with Canceled while the context is alive. */
  predicate PeerCancels(s: State, step: Step)
    requires CanStep(s, step)
  {
    && step.Work? && !s.Over()
    && var failure := PeerFailure(s.plan[step.worker], s.workers[step.worker], step.act);
       failure.Some? && SaysCanceled(failure.value)
  }

  /** Some step of the run is such a failure. */
  ghost predicate PeerCancelsAlong(s: State, steps: seq<Step>)
    requires Possible(s, steps)
    decreases |steps|
  {
    steps != [] && (PeerCancels(s, steps[0]) || PeerCancelsAlong(Next(s, steps[0]), steps[1..]))
  }

  /** An edge has left with an error saying Canceled. */
  predicate LeftCanceled(w: Worker) {
    Ended(w) && w.pc.err.Some? && SaysCanceled(w.pc.err.value.cause)
  }

  /** And it left, or is leaving, with the context alive. */
  predicate LeftCanceledAlive(s: State, i: nat)
    requires i < |s.workers|
  {
    LeftCanceled(s.workers[i]) && if s.workers[i].pc.Returned? then !s.Over() else s.workers[i].pc.live
  }

  predicate Tainted(s: State) {
    exists i :: 0 <= i < |s.workers| && LeftCanceled(s.workers[i])
  }

  predicate Suspect(s: State) {
    exists i: nat :: i < |s.workers| && LeftCanceledAlive(s, i)
  }

  /**
   An action ends its loop with Canceled exactly as its peer fails with it, or as a source ends in a context that is
   over.
   */
  lemma ActEndsCanceled(edge: Edge, w: Worker, a: Act)
    requires Enabled(edge, w, a)
    ensures var failure := PeerFailure(edge, w, a);
            failure.Some? && SaysCanceled(failure.value) ==> LeftCanceled(After(edge, w, a))
    ensures var failure := PeerFailure(edge, w, a);
            LeftCanceled(After(edge, w, a)) ==>
              && After(edge, w, a).pc.Returned?
              && ((failure.Some? && SaysCanceled(failure.value)) || (a.GotEof? && !a.live))
  {
  }

  lemma SuspectStep(s: State, step: Step)
    requires CanStep(s, step) && Suspect(Next(s, step))
    ensures Suspect(s) || PeerCancels(s, step)
  {
    hide After, Enabled, PeerFailure;
    var t := Next(s, step);
    var i: nat :| i < |t.workers| && LeftCanceledAlive(t, i);
    if step.Work? && step.worker == i {
      ActEndsCanceled(s.plan[i], s.workers[i], step.act);
    } else if i < |s.workers| {
      assert LeftCanceledAlive(s, i);
    }
  }

  lemma TaintedStep(s: State, step: Step)
    requires CanStep(s, step) && (Tainted(s) || PeerCancels(s, step))
    ensures Tainted(Next(s, step))
  {
    var t := Next(s, step);
    if PeerCancels(s, step) {
      ActEndsCanceled(s.plan[step.worker], s.workers[step.worker], step.act);
      assert LeftCanceled(t.workers[step.worker]);
    } else {
      var i :| 0 <= i < |s.workers| && LeftCanceled(s.workers[i]);
      assert LeftCanceled(t.workers[i]);
    }
  }

  lemma {:induction false} SuspectAlong(s: State, steps: seq<Step>)
    requires Possible(s, steps)
    ensures Suspect(Run(s, steps)) ==> Suspect(s) || PeerCancelsAlong(s, steps)
    ensures Tainted(s) || PeerCancelsAlong(s, steps) ==> Tainted(Run(s, steps))
    decreases |steps|
  {
    hide Suspect, Tainted, PeerCancels, CanStep, Next;
    if steps != [] {
      SuspectAlong(Next(s, steps[0]), steps[1..]);
      if Suspect(Next(s, steps[0])) {
        SuspectStep(s, steps[0]);
      }
      if Tainted(s) || PeerCancels(s, steps[0]) {
        TaintedStep(s, steps[0]);
      }
    }
  }

  /** If the group's error is none, or says Canceled, an edge that left with Canceled had a live one before it. */
  lemma TaintedIsCanceledLive(s: State)
    requires GlobalInv(s) && s.AllDone() && ForgivenOnlyByGroup(s) && WaitResult(s.first).None?
    ensures Tainted(s) ==> CanceledWhileLive(s)
    ensures CanceledWhileLive(s) ==> Suspect(s)
  {
    hide WorkerOk;
    if Tainted(s) {
      var i :| 0 <= i < |s.workers| && LeftCanceled(s.workers[i]);
      assert s.workers[i].pc.Done?;
      if !s.workers[i].pc.live {
        var j :| 0 <= j < |s.workers| && s.workers[j].pc.Done?
                 && s.workers[j].pc.err == s.first && Reported(s.first, s.workers[j].pc.live) == s.first;
        assert SaysCanceled(s.workers[j].pc.err.value.cause) && s.workers[j].pc.live;
      }
    }
    if CanceledWhileLive(s) {
      var i :| 0 <= i < |s.workers| && s.workers[i].pc.Done? && s.workers[i].pc.live
               && s.workers[i].pc.err.Some? && SaysCanceled(s.workers[i].pc.err.value.cause);
      assert LeftCanceledAlive(s, i);
    }
  }

  /**
   When every edge has run to its end and Wait returns nil without an outside stop, everything was delivered exactly if
   at no point of the run a peer failed with Canceled while the context was alive.
   */
  lemma NilMeansDeliveredUnlessCanceled(s: State, steps: seq<Step>)
    requires Initial(s) && Possible(s, steps)
    requires var f := Run(s, steps);
             |f.workers| == |f.plan| && f.AllDone() && ForgivenOnlyByGroup(f) && WaitResult(f.first).None?
    ensures Delivered(Run(s, steps)) <==> !PeerCancelsAlong(s, steps)
  {
    hide GlobalInv, Delivered, CanceledWhileLive, Tainted, ForgivenOnlyByGroup;
    var f := Run(s, steps);
    InitialInv(s);
    EveryInterleaving(s, steps);
    NilMeansDeliveredIff(f);
    TaintedIsCanceledLive(f);
    SuspectAlong(s, steps);
  }

  /**
   A sink edge that ended cleanly: the sink got exactly the accepted events, and acknowledged exactly their number.
   */
  lemma DeliveredToTarget(s: State, i: nat, k: nat)
    requires Delivered(s) && i < |s.plan| && k < |s.plan[i].targets|
    ensures var emitted := s.feeds[s.plan[i].from].emitted;
            && |s.workers[i].closes| == |s.workers[i].sent| == |s.plan[i].targets|
            && (s.plan[i].targets[k].Processor? ==> s.workers[i].sent[k] == emitted)
            && (s.plan[i].targets[k].Sink? ==>
                  && s.workers[i].sent[k] == Due(s.plan[i].targets[k], emitted)
                  && s.workers[i].closes[k] == Some(Response(|Due(s.plan[i].targets[k], emitted)|, 0, 0)))
  {
    assert Clean(s.plan[i], s.workers[i]);
    if s.plan[i].targets[k].Processor? {
      ProcessorIsDueEverything(s.plan[i].targets[k], s.feeds[s.plan[i].from].emitted);
    }
  }

  // ---------- After the context is over ----------

  /** The error with which a loop has ended, whether or not it is recorded yet. */
  function Failure(w: Worker): Option<DeliveryError> {
    if Ended(w) then w.pc.err else None
  }

  /** The loop ended with an error that launch does not forgive even when the context is over. */
  predicate Unforgivable(w: Worker) {
    Failure(w).Some? && !Forgivable(Failure(w).value.cause)
  }

  predicate AnyUnforgivable(s: State) {
    exists i :: 0 <= i < |s.workers| && Unforgivable(s.workers[i])
  }

  predicate NothingFailed(s: State) {
    s.first.None? && forall i :: 0 <= i < |s.workers| ==> Failure(s.workers[i]).None?
  }

  predicate FailsUnforgivably(s: State, step: Step)
    requires CanStep(s, step)
  {
    step.Work? && Unforgivable(After(s.plan[step.worker], s.workers[step.worker], step.act))
  }

  /** Every error was looked at with the context over, and the one the group holds is not excused by that. */
  predicate Judged(s: State) {
    && s.WellFormed() && s.Over()
    && (forall i :: 0 <= i < |s.workers| && Failure(s.workers[i]).Some? ==>
          s.workers[i].pc.Returned? || !s.workers[i].pc.live)
    && (s.first.Some? ==> AnyUnforgivable(s) && !SaysCanceled(s.first.value.cause))
  }

  lemma NothingFailedIsJudged(s: State)
    requires GlobalInv(s) && s.Over() && NothingFailed(s)
    ensures Judged(s) && !AnyUnforgivable(s)
  {
  }

  lemma UnforgivableStep(s: State, step: Step)
    requires CanStep(s, step)
    ensures AnyUnforgivable(Next(s, step)) <==> AnyUnforgivable(s) || FailsUnforgivably(s, step)
  {
    hide After;
    var t := Next(s, step);
    if AnyUnforgivable(s) {
      var i :| 0 <= i < |s.workers| && Unforgivable(s.workers[i]);
      assert Unforgivable(t.workers[i]);
    }
    if FailsUnforgivably(s, step) {
      assert Unforgivable(t.workers[step.worker]);
    }
    if AnyUnforgivable(t) {
      var i :| 0 <= i < |t.workers| && Unforgivable(t.workers[i]);
      assert i < |s.workers| && (Unforgivable(s.workers[i]) || (step.Work? && step.worker == i));
    }
  }

  lemma JudgedStep(s: State, step: Step)
    requires Judged(s) && CanStep(s, step)
    ensures Judged(Next(s, step))
    ensures AnyUnforgivable(Next(s, step)) <==> AnyUnforgivable(s) || FailsUnforgivably(s, step)
  {
    hide After, AnyUnforgivable, FailsUnforgivably;
    UnforgivableStep(s, step);
    if step.Work? {
      ActReceives(s.plan[step.worker], s.workers[step.worker], step.act);
    } else if step.Record? && Unforgivable(s.workers[step.worker]) {
      UnforgivableOne(s, step.worker);
    }
  }

  lemma UnforgivableOne(s: State, i: nat)
    requires i < |s.workers| && Unforgivable(s.workers[i])
    ensures AnyUnforgivable(s)
  {
  }

  lemma JudgedAtTheEnd(s: State)
    requires GlobalInv(s) && Judged(s) && s.AllDone()
    ensures WaitResult(s.first).Some? <==> AnyUnforgivable(s)
  {
    if AnyUnforgivable(s) {
      var i :| 0 <= i < |s.workers| && Unforgivable(s.workers[i]);
      assert WorkerOk(s, i);
    }
  }

  /** One finite source whose only edge fans out to one sink. */
  function OneSourceOneSink(): State {
    State([Edge(FanOutSource(true), 0, "source", 0, [Sink("sink", 1, [])])], [], [Feed([], false), Feed([], false)],
      false, None)
  }

  /** The source of that pipeline fails with Canceled before anything was delivered. */
  function CanceledSource(): seq<Step> {
    [Launch] + ([Work(0, GotError(Status(Canceled)))] + ([Decide(0)] + ([Record(0)] + [])))
  }

  /**
   The hypothesis is needed: in this run the group takes the source's Canceled, Wait returns nil, and nothing
   ended the context from outside, yet nothing was delivered.
   */
  lemma CanceledPeerIsTakenForSuccess()
    ensures Initial(OneSourceOneSink()) && Possible(OneSourceOneSink(), CanceledSource())
    ensures var f := Run(OneSourceOneSink(), CanceledSource());
            && |f.workers| == |f.plan| && f.AllDone() && !f.stopped && ForgivenOnlyByGroup(f)
            && WaitResult(f.first).None? && !Delivered(f)
  {
  }
}
