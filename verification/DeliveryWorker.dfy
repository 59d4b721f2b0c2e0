/**
 One forwarding loop seen on its own: its program counter, what it has received and what it has sent.
 `After` is the effect of one visible action of the loop. The imperative loops (module Forwarding) and the
 concurrent protocol (module DeliveryProtocol) both run on it.
 */
module DeliveryWorker {
  import opened Wrappers
  import opened Transport

  datatype Pc =
    | Receiving
    | Sending(event: Event, next: nat)
    | Closing(next: nat)
    | Returned(err: Option<DeliveryError>)               // the loop function returned
    | Decided(err: Option<DeliveryError>, live: bool)    // launch looked at the context; live: it was not over
    | Done(err: Option<DeliveryError>, live: bool)       // the group has recorded the outcome

  /** `sent[k]` is the log of the stream of target k; `closes[k]` its answer when it was closed. */
  datatype Worker = Worker(
    pc: Pc, received: seq<Event>, sawEof: bool, sent: seq<seq<Event>>, closes: seq<Option<Response>>)

  datatype Act =
    | GotEvent(event: Event)
    | GotEof(live: bool)
    | GotError(cause: Cause)
    | Skip
    | SendOk
    | SendFailed(cause: Cause, onClose: Option<Cause>)   // onClose: what CloseAndRecv reports after a failed Send
    | Closed(answer: Option<Response>)
    | CloseFailed(cause: Cause)

  function Start(edge: Edge): Worker {
    Worker(Receiving, [], false, seq(|edge.targets|, _ => []), [])
  }

  function Fault(edge: Edge, to: string, op: Operation, event: Option<Event>, cause: Cause): DeliveryError {
    DeliveryError(edge.fromId, to, KindOf(edge), op, event, cause)
  }

  /** Receive errors name the target of a forwarding edge, and all sinks of a fan-out. */
  function ReceiverName(edge: Edge): string {
    if (edge.role.FanOutProcessor? || edge.role.FanOutSource?) || edge.targets == [] then "sinks"
    else edge.targets[0].id
  }

  function SendOrReceive(edge: Edge, event: Event, next: nat): Pc {
    if next < |edge.targets| then Sending(event, next) else Receiving
  }

  function CloseOrReturn(edge: Edge, next: nat): Pc {
    if next < |edge.targets| then Closing(next) else Returned(None)
  }

  /** What end-of-file means on this edge: None when the targets may be closed. */
  function EofFault(edge: Edge, live: bool): Option<DeliveryError> {
    match edge.role
    case ForwardSource(bounded) =>
      if !bounded && live
      then Some(Fault(edge, ReceiverName(edge), RecvUnexpectedEof, None, UnexpectedEof)) else None
    case FanOutSource(bounded) =>
      if !live then Some(Fault(edge, ReceiverName(edge), Recv, None, ContextCanceled))
      else if !bounded then Some(Fault(edge, ReceiverName(edge), Recv, None, UnexpectedEof)) else None
    case Forward => None
    case FanOutProcessor => None
  }

  /** A failed Send that reads end-of-file is replaced by the sink's own error, if it has one. */
  function SendCause(t: Target, cause: Cause, onClose: Option<Cause>): Cause {
    if t.Sink? && cause == EndOfFile && onClose.Some? then onClose.value else cause
  }

  /** The acknowledgement a sink owes for `count` events. */
  function ExactAck(count: nat): Option<Response> {
    Some(Response(count, 0, 0))
  }

  function CloseFault(edge: Edge, t: Target, count: nat, answer: Option<Response>): Option<DeliveryError> {
    if t.Processor? || answer == ExactAck(count) then None
    else Some(Fault(edge, t.id, CloseAcknowledgement, None, if answer.None? then MissingResponse else Miscounted))
  }

  /** The cause with which a peer makes the loop fail in this action, if it does. */
  function PeerFailure(edge: Edge, w: Worker, a: Act): Option<Cause>
    requires Enabled(edge, w, a)
  {
    match a
    case GotError(c) => Some(c)
    case SendFailed(c, onClose) => Some(SendCause(edge.targets[w.pc.next], c, onClose))
    case CloseFailed(c) => Some(c)
    case _ => None
  }

  predicate Enabled(edge: Edge, w: Worker, a: Act) {
    && |w.sent| == |edge.targets|
    && match a
       case GotEvent(_) => w.pc.Receiving?
       case GotEof(_) => w.pc.Receiving?
       case GotError(c) => w.pc.Receiving? && c != EndOfFile
       case Skip =>
         w.pc.Sending? && w.pc.next < |edge.targets| && !Takes(edge.targets[w.pc.next], w.pc.event)
       case SendOk =>
         w.pc.Sending? && w.pc.next < |edge.targets| && Takes(edge.targets[w.pc.next], w.pc.event)
       case SendFailed(_, _) =>
         w.pc.Sending? && w.pc.next < |edge.targets| && Takes(edge.targets[w.pc.next], w.pc.event)
       case Closed(_) => w.pc.Closing? && w.pc.next < |edge.targets|
       case CloseFailed(_) => w.pc.Closing? && w.pc.next < |edge.targets|
  }

  function After(edge: Edge, w: Worker, a: Act): Worker
    requires Enabled(edge, w, a)
  {
    match a
    case GotEvent(e) => w.(received := w.received + [e], pc := SendOrReceive(edge, e, 0))
    case GotEof(live) =>
      var fault := EofFault(edge, live);
      if fault.Some? then w.(pc := Returned(fault)) else w.(sawEof := true, pc := CloseOrReturn(edge, 0))
    case GotError(c) => w.(pc := Returned(Some(Fault(edge, ReceiverName(edge), Recv, None, c))))
    case Skip => w.(pc := SendOrReceive(edge, w.pc.event, w.pc.next + 1))
    case SendOk =>
      var n := w.pc.next;
      w.(sent := w.sent[n := w.sent[n] + [w.pc.event]], pc := SendOrReceive(edge, w.pc.event, n + 1))
    case SendFailed(c, onClose) =>
      var t := edge.targets[w.pc.next];
      w.(pc := Returned(Some(Fault(edge, t.id, Send, Some(w.pc.event), SendCause(t, c, onClose)))))
    case Closed(answer) =>
      var n := w.pc.next;
      var fault := CloseFault(edge, edge.targets[n], |w.sent[n]|, answer);
      if fault.Some? then w.(pc := Returned(fault))
      else w.(closes := w.closes + [answer], pc := CloseOrReturn(edge, n + 1))
    case CloseFailed(c) =>
      var t := edge.targets[w.pc.next];
      var op := if t.Processor? then Close else CloseAcknowledgement;
      w.(pc := Returned(Some(Fault(edge, t.id, op, None, c))))
  }

  // ---------- How a loop ends ----------

  /**
   A loop fails exactly when its peer does, when a sink does not acknowledge exactly what it was sent with no failure,
   when an unbounded source's stream ends in a live context, and when a fanned-out source's stream ends in one that is
   over; and with these causes.
   */
  lemma LoopFailsIff(edge: Edge, w: Worker, a: Act)
    requires Enabled(edge, w, a)
    ensures var pc, n := After(edge, w, a).pc, if w.pc.Sending? || w.pc.Closing? then w.pc.next else 0;
            pc.Returned? && pc.err.Some? <==>
              || a.GotError? || a.SendFailed? || a.CloseFailed?
              || (a.GotEof? && a.live && (edge.role == ForwardSource(false) || edge.role == FanOutSource(false)))
              || (a.GotEof? && !a.live && edge.role.FanOutSource?)
              || (a.Closed? && edge.targets[n].Sink? && a.answer != Some(Response(|w.sent[n]|, 0, 0)))
    ensures var pc, n := After(edge, w, a).pc, if w.pc.Sending? || w.pc.Closing? then w.pc.next else 0;
            pc.Returned? && pc.err.Some? ==>
              && (a.GotError? ==> pc.err.value.cause == a.cause)
              && (a.SendFailed? ==>
                    pc.err.value.cause ==
                    if edge.targets[n].Sink? && a.cause == EndOfFile && a.onClose.Some? then a.onClose.value
                    else a.cause)
              && (a.CloseFailed? ==> pc.err.value.cause == a.cause)
              && (a.GotEof? ==> pc.err.value.cause == if a.live then UnexpectedEof else ContextCanceled)
              && (a.Closed? ==> pc.err.value.cause == if a.answer.None? then MissingResponse else Miscounted)
  {
  }

  /** The error of a loop names its edge, the target it failed on, the operation, and the event if there is one. */
  lemma FailureNamesTheEdge(edge: Edge, w: Worker, a: Act)
    requires Enabled(edge, w, a) && After(edge, w, a).pc.Returned? && After(edge, w, a).pc.err.Some?
    ensures var e, n := After(edge, w, a).pc.err.value, if w.pc.Sending? || w.pc.Closing? then w.pc.next else 0;
            && e.from == edge.fromId
            && (edge.role.ForwardSource? ==> e.kind == SourceProcessor)
            && (edge.role.Forward? ==> e.kind == ProcessorProcessor)
            && (edge.role.FanOutProcessor? ==> e.kind == ProcessorSink)
            && (edge.role.FanOutSource? ==> e.kind == SourceSink)
            && (a.GotError? ==> e.operation == Recv)
            && (a.GotEof? ==> e.operation == if edge.role.ForwardSource? then RecvUnexpectedEof else Recv)
            && (a.GotError? || a.GotEof? ==>
                  && e.event == None
                  && e.to == if edge.role.FanOutProcessor? || edge.role.FanOutSource? || edge.targets == [] then "sinks"
                             else edge.targets[0].id)
            && (a.SendFailed? ==> e.operation == Send && e.event == Some(w.pc.event) && e.to == edge.targets[n].id)
            && (a.CloseFailed? || a.Closed? ==>
                  && e.event == None && e.to == edge.targets[n].id
                  && e.operation ==
                     if a.CloseFailed? && edge.targets[n].Processor? then Close else CloseAcknowledgement)
  {
  }

  /** A loop returns nil exactly when its stream ended and no target is left to close. */
  lemma LoopReturnsNilIff(edge: Edge, w: Worker, a: Act)
    requires Enabled(edge, w, a)
    ensures var pc, n := After(edge, w, a).pc, if w.pc.Sending? || w.pc.Closing? then w.pc.next else 0;
            pc == Returned(None) <==>
              || (a.GotEof? && edge.targets == [] && !(a.live && edge.role == ForwardSource(false))
                  && edge.role != FanOutSource(false) && !(!a.live && edge.role.FanOutSource?))
              || (a.Closed? && n + 1 == |edge.targets|
                  && (edge.targets[n].Processor? || a.answer == Some(Response(|w.sent[n]|, 0, 0))))
  {
  }

  // ---------- What every action keeps ----------

  /** Targets below n have all that is due from `now`, the others all that is due from `before`. */
  predicate SentUpTo(edge: Edge, sent: seq<seq<Event>>, n: nat, now: seq<Event>, before: seq<Event>) {
    && |sent| == |edge.targets|
    && forall k :: 0 <= k < |sent| ==> sent[k] == Due(edge.targets[k], if k < n then now else before)
  }

  /** Every target has exactly what it is due. */
  predicate FullySent(edge: Edge, w: Worker) {
    SentUpTo(edge, w.sent, |edge.targets|, w.received, [])
  }

  /** Each target's log is what it is due, except that the event in hand may still be missing at some targets. */
  predicate AtMostOneInHand(edge: Edge, w: Worker) {
    || FullySent(edge, w)
    || (w.received != [] &&
        exists n: nat {:trigger SentUpTo(edge, w.sent, n, w.received, w.received[..|w.received| - 1])} ::
          n < |edge.targets| && SentUpTo(edge, w.sent, n, w.received, w.received[..|w.received| - 1]))
  }

  /** The first n targets were closed, and the sinks among them acknowledged exactly what they were sent. */
  predicate ClosedUpTo(edge: Edge, w: Worker, n: nat) {
    && |w.closes| == n <= |edge.targets| == |w.sent|
    && forall k :: 0 <= k < n && edge.targets[k].Sink? ==> w.closes[k] == ExactAck(|w.sent[k]|)
  }

  /** The edge saw a clean end of stream, sent everything and closed everything. */
  predicate Clean(edge: Edge, w: Worker) {
    w.sawEof && FullySent(edge, w) && ClosedUpTo(edge, w, |edge.targets|)
  }

  /** The loop's outcome, once it has one. */
  predicate Ended(w: Worker) {
    w.pc.Returned? || w.pc.Decided? || w.pc.Done?
  }

  predicate Inv(edge: Edge, w: Worker) {
    && |w.sent| == |edge.targets|
    && match w.pc
       case Receiving => FullySent(edge, w) && !w.sawEof && w.closes == []
       case Sending(e, n) =>
         && !w.sawEof && w.closes == [] && n < |edge.targets|
         && w.received != [] && w.received[|w.received| - 1] == e
         && SentUpTo(edge, w.sent, n, w.received, w.received[..|w.received| - 1])
       case Closing(n) => w.sawEof && FullySent(edge, w) && n < |edge.targets| && ClosedUpTo(edge, w, n)
       case _ => AtMostOneInHand(edge, w) && (w.pc.err.None? <==> Clean(edge, w))
  }

  lemma StartInv(edge: Edge)
    ensures Inv(edge, Start(edge))
  {
  }

  lemma DueSnoc(t: Target, es: seq<Event>, e: Event)
    ensures Due(t, es + [e]) == if Takes(t, e) then Due(t, es) + [e] else Due(t, es)
  {
    assert (es + [e])[..|es|] == es;
  }

  /** Every action of a loop keeps its invariant: nothing is lost, reordered, duplicated or sent unaccepted. */
  lemma ActKeepsInv(edge: Edge, w: Worker, a: Act)
    requires Inv(edge, w) && Enabled(edge, w, a)
    ensures Inv(edge, After(edge, w, a))
    ensures w.sawEof ==> After(edge, w, a).received == w.received
  {
    if a.GotEvent? {
      ReceivingKeepsInv(edge, w, a);
    } else if w.pc.Sending? {
      SendingKeepsInv(edge, w, a);
    } else {
      ClosingKeepsInv(edge, w, a);
    }
  }

  lemma ReceivingKeepsInv(edge: Edge, w: Worker, a: Act)
    requires Inv(edge, w) && Enabled(edge, w, a) && a.GotEvent?
    ensures Inv(edge, After(edge, w, a)) && !w.sawEof
  {
    hide Due, Takes;
    var w' := After(edge, w, a);
    assert w'.received[..|w'.received| - 1] == w.received;
    assert SentUpTo(edge, w'.sent, 0, w'.received, w.received);
  }

  lemma SendingKeepsInv(edge: Edge, w: Worker, a: Act)
    requires Inv(edge, w) && Enabled(edge, w, a) && w.pc.Sending?
    ensures Inv(edge, After(edge, w, a)) && !w.sawEof
  {
    hide SentUpTo, Takes, Due;
    if a.SendFailed? {
      InvMeansAtMostOneInHand(edge, w);
    } else {
      SendingStep(edge, w, After(edge, w, a).sent);
    }
  }

  /** The end of the stream, a failed receive, and the closing of one target. */
  lemma ClosingKeepsInv(edge: Edge, w: Worker, a: Act)
    requires Inv(edge, w) && Enabled(edge, w, a) && !a.GotEvent? && !w.pc.Sending?
    ensures Inv(edge, After(edge, w, a)) && After(edge, w, a).received == w.received
  {
    hide SentUpTo;
  }

  /** Visiting one target, by sending or by passing over it, moves the frontier by one. */
  lemma SendingStep(edge: Edge, w: Worker, sent': seq<seq<Event>>)
    requires Inv(edge, w) && w.pc.Sending?
    requires sent' == (if Takes(edge.targets[w.pc.next], w.pc.event)
                       then w.sent[w.pc.next := w.sent[w.pc.next] + [w.pc.event]] else w.sent)
    ensures SentUpTo(edge, sent', w.pc.next + 1, w.received, w.received[..|w.received| - 1])
    ensures w.pc.next + 1 >= |edge.targets| ==> SentUpTo(edge, sent', |edge.targets|, w.received, [])
  {
    hide Due, Takes;
    var before := w.received[..|w.received| - 1];
    assert w.received == before + [w.pc.event];
    DueSnoc(edge.targets[w.pc.next], before, w.pc.event);
  }

  // ---------- A whole run of one loop ----------

  ghost predicate Playable(edge: Edge, acts: seq<Act>)
    decreases |acts|, 0
  {
    || acts == []
    || (Playable(edge, acts[..|acts| - 1]) &&
        Enabled(edge, Play(edge, acts[..|acts| - 1]), acts[|acts| - 1]))
  }

  ghost function Play(edge: Edge, acts: seq<Act>): Worker
    requires Playable(edge, acts)
    decreases |acts|, 1
  {
    if acts == [] then Start(edge) else After(edge, Play(edge, acts[..|acts| - 1]), acts[|acts| - 1])
  }

  lemma PlaySnoc(edge: Edge, acts: seq<Act>, a: Act)
    requires Playable(edge, acts) && Enabled(edge, Play(edge, acts), a)
    ensures Playable(edge, acts + [a]) && Play(edge, acts + [a]) == After(edge, Play(edge, acts), a)
  {
    assert (acts + [a])[..|acts|] == acts;
  }

  /**
   At every point of every run of a loop, each target's log differs from what it is due by at most the event in hand.
   */
  lemma {:induction false} PlayKeepsInv(edge: Edge, acts: seq<Act>)
    requires Playable(edge, acts)
    ensures Inv(edge, Play(edge, acts)) && AtMostOneInHand(edge, Play(edge, acts))
  {
    if acts == [] {
      StartInv(edge);
    } else {
      PlayKeepsInv(edge, acts[..|acts| - 1]);
      ActKeepsInv(edge, Play(edge, acts[..|acts| - 1]), acts[|acts| - 1]);
      InvMeansAtMostOneInHand(edge, Play(edge, acts));
    }
  }

  lemma InvMeansAtMostOneInHand(edge: Edge, w: Worker)
    requires Inv(edge, w)
    ensures AtMostOneInHand(edge, w)
  {
    if w.pc.Sending? {
      assert SentUpTo(edge, w.sent, w.pc.next, w.received, w.received[..|w.received| - 1]);
    }
  }

  /** Over an unbounded source, a fan-out never returns nil, whatever its peers do. */
  lemma {:induction false} UnboundedFanOutNeverReturnsNil(edge: Edge, acts: seq<Act>)
    requires Playable(edge, acts) && edge.role == FanOutSource(false)
    ensures !Play(edge, acts).sawEof
    ensures Ended(Play(edge, acts)) ==> Play(edge, acts).pc.err.Some?
  {
    if acts != [] {
      UnboundedFanOutNeverReturnsNil(edge, acts[..|acts| - 1]);
      PlayKeepsInv(edge, acts);
    }
  }
}
