/**
 The three forwarding loops as the orchestrator runs them, over streams whose peers are arbitrary: a stream yields
 some events and then ends or breaks; a send may fail at any point; a close may fail or answer anything.
 Each loop is shown to be a worker of module DeliveryWorker, and its result is characterised exactly.
 */
module Forwarding {
  import opened Wrappers
  import opened Transport
  import opened DeliveryWorker

  /** How a stream ends once all its events are taken. `live`: the context was not over when end-of-file was read. */
  datatype Ending = Eof(live: bool) | Broken(cause: Cause)

  datatype Received = Got(event: Event) | AtEof | Failed(cause: Cause)

  /** The receiving side of a stream. */
  class Upstream {
    const events: seq<Event>
    const ending: Ending
    var pos: nat

    constructor (events: seq<Event>, ending: Ending)
      ensures this.events == events && this.ending == ending && pos == 0
    {
      this.events, this.ending, pos := events, ending, 0;
    }

    method Recv() returns (r: Received)
      requires pos <= |events|
      modifies this
      ensures old(pos) < |events| ==> r == Got(events[old(pos)]) && pos == old(pos) + 1
      ensures old(pos) == |events| ==>
        pos == old(pos) && r == match ending { case Eof(_) => AtEof case Broken(c) => Failed(c) }
    {
      if pos < |events| {
        r := Got(events[pos]);
        pos := pos + 1;
      } else {
        r := match ending case Eof(_) => AtEof case Broken(c) => Failed(c);
      }
    }

    /** sourceReceiver.Recv: end-of-file is an error once the context is over, or if the source is not finite. */
    method RecvFromSource(bounded: bool) returns (r: Received)
      requires pos <= |events| && ending != Broken(EndOfFile)
      modifies this
      ensures old(pos) < |events| ==> r == Got(events[old(pos)]) && pos == old(pos) + 1
      ensures old(pos) == |events| ==> pos == old(pos) && !r.Got?
      ensures old(pos) == |events| ==>
        (r.AtEof? <==> ending == Eof(true) && bounded)
      ensures old(pos) == |events| && r.Failed? ==>
        r.cause == if ending.Broken? then ending.cause else if !ending.live then ContextCanceled else UnexpectedEof
    {
      r := Recv();
      if r.AtEof? && !ending.live {
        return Failed(ContextCanceled);
      }
      if r.AtEof? && !bounded {
        return Failed(UnexpectedEof);
      }
    }
  }

  /** The sending side of a stream to a processor or a sink; `closeAnswer` is what closing it reports. */
  class Downstream {
    const id: string
    const types: seq<string>
    const failAt: Option<nat>         // the send that fails, if any
    const failCause: Cause
    const closeAnswer: Result<Option<Response>, Cause>
    var log: seq<Event>
    var closed: bool

    constructor (id: string, types: seq<string>, failAt: Option<nat>, failCause: Cause,
        closeAnswer: Result<Option<Response>, Cause>)
      ensures this.id == id && this.types == types && this.failAt == failAt && this.failCause == failCause
      ensures this.closeAnswer == closeAnswer && log == [] && !closed
    {
      this.id, this.types, this.failAt, this.failCause, this.closeAnswer := id, types, failAt, failCause, closeAnswer;
      log, closed := [], false;
    }

    method Send(event: Event) returns (err: Option<Cause>)
      modifies this`log
      ensures failAt == Some(|old(log)|) ==> err == Some(failCause) && log == old(log)
      ensures failAt != Some(|old(log)|) ==> err.None? && log == old(log) + [event]
    {
      if failAt == Some(|log|) {
        return Some(failCause);
      }
      log := log + [event];
      err := None;
    }

    method CloseAndRecv() returns (r: Result<Option<Response>, Cause>)
      modifies this`closed
      ensures r == closeAnswer && closed
    {
      closed := true;
      r := closeAnswer;
    }
  }

  /** The target of the protocol that a stream stands for. */
  ghost predicate Stands(t: Target, d: Downstream) {
    t.id == d.id && (t.Sink? ==> t.types == d.types)
  }

  /** No send of the first `n` to this stream fails. */
  predicate TakesAll(d: Downstream, n: nat) {
    d.failAt.None? || d.failAt.value >= n
  }

  lemma {:induction false} DueGrows(t: Target, es: seq<Event>, i: nat)
    requires i <= |es|
    ensures |Due(t, es[..i])| <= |Due(t, es)|
    decreases |es|
  {
    if i < |es| {
      DueGrows(t, es[..|es| - 1], i);
      assert es[..|es| - 1][..i] == es[..i];
    } else {
      assert es[..i] == es;
    }
  }

  lemma PlayNothing(edge: Edge)
    ensures Playable(edge, []) && Play(edge, []) == Start(edge)
  {
  }

  /** A send that fails in the middle of the stream is a send the stream would not take. */
  lemma FailingSendIsDue(t: Target, es: seq<Event>, i: nat)
    requires i < |es| && Takes(t, es[i])
    ensures |Due(t, es[..i])| < |Due(t, es)|
  {
    assert es[..i + 1] == es[..i] + [es[i]];
    DueSnoc(t, es[..i], es[i]);
    DueGrows(t, es, i + 1);
  }

  // ---------- forwardSource and forward ----------

  /** What end-of-file must look like for the edge to close its targets. */
  predicate EofIsClean(role: Role, ending: Ending) {
    && ending.Eof?
    && (role.ForwardSource? ==> role.bounded || !ending.live)
    && (role.FanOutSource? ==> role.bounded && ending.live)
  }

  ghost predicate ForwardingEdge(edge: Edge, from: Upstream, fromId: string, to: Downstream) {
    && edge.fromId == fromId && |edge.targets| == 1 && edge.targets[0].Processor? && Stands(edge.targets[0], to)
    && from.ending != Broken(EndOfFile)
  }

  /** The worker has received what was taken from the stream, and its log is the stream's log. */
  ghost predicate Tracks(w: Worker, from: Upstream, logs: seq<seq<Event>>)
    reads from
  {
    from.pos <= |from.events| && w.received == from.events[..from.pos] && w.sent == logs
  }

  /**
   forwardSource, and forward when the edge is not a source's. It returns nil exactly if the stream ended cleanly,
   every send was taken and the close succeeded; then the processor was sent everything, in order, and closed.
   */
  method ForwardEvents(ghost edge: Edge, role: Role, from: Upstream, to: Downstream, fromId: string, toId: string)
    returns (err: Option<DeliveryError>, ghost acts: seq<Act>)
    requires role.ForwardSource? || role.Forward?
    requires ForwardingEdge(edge, from, fromId, to) && edge.role == role && toId == to.id
    requires from.pos == 0 && to.log == [] && !to.closed
    modifies from, to
    ensures Playable(edge, acts) && Play(edge, acts).pc == Returned(err)
    ensures Tracks(Play(edge, acts), from, [to.log])
    ensures err.None? <==>
      EofIsClean(role, from.ending) && TakesAll(to, |from.events|) && to.closeAnswer.Ok?
    ensures err.None? ==> to.log == from.events && to.closed
    ensures to.log <= from.events && |to.log| <= from.pos <= |to.log| + 1
  {
    hide Play, Playable;
    var kind := if role.ForwardSource? then SourceProcessor else ProcessorProcessor;
    acts := [];
    ghost var w := Start(edge);
    PlayNothing(edge);
    assert w.sent == [[]];
    while true
      invariant from.pos <= |from.events| && to.log == from.events[..from.pos] && !to.closed
      invariant Playable(edge, acts) && Play(edge, acts) == w
      invariant w.pc == Receiving && Tracks(w, from, [to.log])
      invariant TakesAll(to, from.pos)
      decreases |from.events| - from.pos
    {
      var got := from.Recv();
      match got {
        case AtEof =>
          acts, w := Extend(edge, acts, w, GotEof(from.ending.live));
          if role.ForwardSource? && !role.bounded && from.ending.live {
            return Some(DeliveryError(fromId, toId, kind, RecvUnexpectedEof, None, UnexpectedEof)), acts;
          }
          var answer := to.CloseAndRecv();
          acts, w := Extend(edge, acts, w, if answer.Err? then CloseFailed(answer.error) else Closed(answer.value));
          if answer.Err? {
            return Some(DeliveryError(fromId, toId, kind, Close, None, answer.error)), acts;
          }
          assert from.events[..from.pos] == from.events;
          return None, acts;
        case Failed(cause) =>
          acts, w := Extend(edge, acts, w, GotError(cause));
          return Some(DeliveryError(fromId, toId, kind, Recv, None, cause)), acts;
        case Got(event) =>
          acts, w := Extend(edge, acts, w, GotEvent(event));
          var failed := to.Send(event);
          acts, w := Extend(edge, acts, w, if failed.Some? then SendFailed(failed.value, None) else SendOk);
          if failed.Some? {
            return Some(DeliveryError(fromId, toId, kind, Send, Some(event), failed.value)), acts;
          }
      }
    }
  }

  /** The worker takes one more action. */
  lemma Extend(edge: Edge, acts: seq<Act>, w: Worker, a: Act) returns (acts': seq<Act>, w': Worker)
    requires Playable(edge, acts) && Play(edge, acts) == w && Enabled(edge, w, a)
    ensures acts' == acts + [a] && w' == After(edge, w, a)
    ensures Playable(edge, acts') && Play(edge, acts') == w'
  {
    PlaySnoc(edge, acts, a);
    acts', w' := acts + [a], After(edge, w, a);
  }

  // ---------- fanOut ----------

  ghost predicate FanOutEdge(edge: Edge, fromId: string, sinks: seq<Downstream>, kind: Kind) {
    && (edge.role.FanOutProcessor? || edge.role.FanOutSource?)
    && edge.fromId == fromId && KindOf(edge) == kind && |edge.targets| == |sinks|
    && (forall k :: 0 <= k < |sinks| ==> edge.targets[k].Sink? && Stands(edge.targets[k], sinks[k]))
    && forall j, k :: 0 <= j < k < |sinks| ==> sinks[j] != sinks[k]
  }

  /** The worker's logs are the sinks' logs, and no sink was sent more than it takes. */
  ghost predicate LogsAre(w: Worker, sinks: seq<Downstream>)
    reads sinks
  {
    && |w.sent| == |sinks|
    && forall k :: 0 <= k < |sinks| ==> sinks[k].log == w.sent[k] && TakesAll(sinks[k], |w.sent[k]|)
  }

  predicate Counts(sent: seq<nat>, w: Worker) {
    |sent| == |w.sent| && forall k :: 0 <= k < |sent| ==> sent[k] == |w.sent[k]|
  }

  /** A sink refused the event it was due. */
  ghost predicate Refused(edge: Edge, w: Worker, event: Event, sinks: seq<Downstream>, k: nat) {
    && k < |sinks| && |edge.targets| == |w.sent| == |sinks|
    && Takes(edge.targets[k], event) && sinks[k].failAt == Some(|w.sent[k]|)
  }

  /** One turn of that loop: the sink is passed over, or sent the event, or refuses it. */
  method SendToSink(ghost edge: Edge, event: Event, sinks: seq<Downstream>, i: nat, sent0: seq<nat>, fromId: string,
                    kind: Kind, ghost acts0: seq<Act>, ghost w0: Worker)
    returns (err: Option<DeliveryError>, sent: seq<nat>, ghost acts: seq<Act>, ghost w: Worker)
    requires FanOutEdge(edge, fromId, sinks, kind) && i < |sinks|
    requires Playable(edge, acts0) && Play(edge, acts0) == w0 && w0.pc == Sending(event, i)
    requires LogsAre(w0, sinks) && Counts(sent0, w0)
    modifies sinks[i]
    ensures Playable(edge, acts) && Play(edge, acts) == w && w.received == w0.received
    ensures err.None? ==> w.pc == SendOrReceive(edge, event, i + 1) && LogsAre(w, sinks) && Counts(sent, w)
    ensures err.Some? ==> w.pc == Returned(err) && Refused(edge, w0, event, sinks, i)
    ensures |w.sent| == |sinks| && forall k :: 0 <= k < |sinks| ==> sinks[k].log == w.sent[k]
    ensures forall k :: 0 <= k < |sinks| && k != i ==> w.sent[k] == w0.sent[k]
  {
    hide Play, Playable;
    var sink := sinks[i];
    sent, acts, w := sent0, acts0, w0;
    if !Accepts(sink.types, event.eventType) {
      acts, w := Extend(edge, acts, w, Skip);
      return None, sent, acts, w;
    }
    var failed := sink.Send(event);
    if failed.Some? {
      var cause := failed.value;
      ghost var onClose := None;
      if cause == EndOfFile {
        var answer := sink.CloseAndRecv();
        if answer.Err? {
          cause := answer.error;
          onClose := Some(answer.error);
        }
      }
      acts, w := Extend(edge, acts, w, SendFailed(failed.value, onClose));
      return Some(DeliveryError(fromId, sink.id, kind, Send, Some(event), cause)), sent, acts, w;
    }
    acts, w := Extend(edge, acts, w, SendOk);
    sent := sent[i := sent[i] + 1];
    err := None;
  }

  /** Sends the event in hand to every sink that accepts it, in order, stopping at the first failure. */
  method SendToAll(ghost edge: Edge, event: Event, sinks: seq<Downstream>, sent0: seq<nat>, fromId: string, kind: Kind,
                   ghost acts0: seq<Act>, ghost w0: Worker)
    returns (err: Option<DeliveryError>, sent: seq<nat>, ghost acts: seq<Act>, ghost w: Worker, ghost refusing: nat)
    requires FanOutEdge(edge, fromId, sinks, kind)
    requires Playable(edge, acts0) && Play(edge, acts0) == w0 && w0.pc == SendOrReceive(edge, event, 0)
    requires LogsAre(w0, sinks) && Counts(sent0, w0)
    modifies sinks
    ensures Playable(edge, acts) && Play(edge, acts) == w && w.received == w0.received
    ensures err.None? ==> w.pc == Receiving && LogsAre(w, sinks) && Counts(sent, w)
    ensures err.Some? ==> w.pc == Returned(err) && Refused(edge, w0, event, sinks, refusing)
    ensures |w.sent| == |sinks| && forall k :: 0 <= k < |sinks| ==> sinks[k].log == w.sent[k]
  {
    hide Play, Playable, Counts;
    sent, acts, w, refusing := sent0, acts0, w0, 0;
    for i := 0 to |sinks|
      invariant Playable(edge, acts) && Play(edge, acts) == w && w.received == w0.received
      invariant w.pc == SendOrReceive(edge, event, i)
      invariant LogsAre(w, sinks) && Counts(sent, w)
      invariant forall k :: i <= k < |sinks| ==> w.sent[k] == w0.sent[k]
    {
      refusing := i;
      err, sent, acts, w := SendToSink(edge, event, sinks, i, sent, fromId, kind, acts, w);
      if err.Some? {
        return;
      }
    }
    err := None;
  }

  /** The sink answered its close with exactly what it was sent. */
  predicate AnswersExactly(d: Downstream, n: nat) {
    d.closeAnswer == Ok(ExactAck(n))
  }

  /** Closes every sink in order and checks each acknowledgement against the number of events sent to it. */
  method CloseAll(ghost edge: Edge, sinks: seq<Downstream>, sent: seq<nat>, fromId: string, kind: Kind,
                  ghost acts0: seq<Act>, ghost w0: Worker)
    returns (err: Option<DeliveryError>, ghost acts: seq<Act>, ghost w: Worker)
    requires FanOutEdge(edge, fromId, sinks, kind)
    requires Playable(edge, acts0) && Play(edge, acts0) == w0 && w0.pc == CloseOrReturn(edge, 0)
    requires LogsAre(w0, sinks) && Counts(sent, w0)
    modifies sinks
    ensures Playable(edge, acts) && Play(edge, acts) == w
    ensures w.pc == Returned(err) && w.sent == w0.sent && w.received == w0.received
    ensures forall k :: 0 <= k < |sinks| ==> sinks[k].log == old(sinks[k].log)
    ensures err.None? <==> forall k :: 0 <= k < |sinks| ==> AnswersExactly(sinks[k], |w0.sent[k]|)
    ensures err.None? ==> forall k :: 0 <= k < |sinks| ==> sinks[k].closed
  {
    hide Play, Playable;
    acts, w := acts0, w0;
    for i := 0 to |sinks|
      invariant Playable(edge, acts) && Play(edge, acts) == w
      invariant w.pc == CloseOrReturn(edge, i) && w.sent == w0.sent && w.received == w0.received
      invariant forall k :: 0 <= k < |sinks| ==> sinks[k].log == old(sinks[k].log)
      invariant forall k :: 0 <= k < i ==> sinks[k].closed && AnswersExactly(sinks[k], |w0.sent[k]|)
    {
      var sink := sinks[i];
      var answer := sink.CloseAndRecv();
      acts, w := Extend(edge, acts, w, if answer.Err? then CloseFailed(answer.error) else Closed(answer.value));
      if answer.Err? {
        assert !AnswersExactly(sinks[i], |w0.sent[i]|);
        return Some(DeliveryError(fromId, sink.id, kind, CloseAcknowledgement, None, answer.error)), acts, w;
      }
      if answer.value.None? {
        assert !AnswersExactly(sinks[i], |w0.sent[i]|);
        return Some(DeliveryError(fromId, sink.id, kind, CloseAcknowledgement, None, MissingResponse)), acts, w;
      }
      var response := answer.value.value;
      if response.failed != 0 || response.errors != 0 || response.consumed != sent[i] {
        assert !AnswersExactly(sinks[i], |w0.sent[i]|);
        return Some(DeliveryError(fromId, sink.id, kind, CloseAcknowledgement, None, Miscounted)), acts, w;
      }
    }
    err := None;
  }

  /** Sink k takes everything it is due and acknowledges exactly that. */
  predicate SinkComplies(edge: Edge, events: seq<Event>, sinks: seq<Downstream>, k: nat)
    requires |edge.targets| == |sinks| && k < |sinks|
  {
    var due := |Due(edge.targets[k], events)|;
    TakesAll(sinks[k], due) && AnswersExactly(sinks[k], due)
  }

  method Receive(role: Role, from: Upstream) returns (got: Received)
    requires role.FanOutProcessor? || role.FanOutSource?
    requires from.pos <= |from.events| && from.ending != Broken(EndOfFile)
    modifies from
    ensures old(from.pos) < |from.events| ==> got == Got(from.events[old(from.pos)]) && from.pos == old(from.pos) + 1
    ensures old(from.pos) == |from.events| ==> from.pos == old(from.pos) && !got.Got?
    ensures old(from.pos) == |from.events| ==> (got.AtEof? <==> EofIsClean(role, from.ending))
    ensures old(from.pos) == |from.events| && got.Failed? ==>
      got.cause == if from.ending.Broken? then from.ending.cause
                   else if !from.ending.live then ContextCanceled else UnexpectedEof
  {
    if role.FanOutSource? {
      got := from.RecvFromSource(role.bounded);
    } else {
      got := from.Recv();
    }
  }

  /** A sink that refuses an event it is due does not comply. */
  lemma RefusalBreaksCompliance(edge: Edge, w: Worker, from: Upstream, i: nat, sinks: seq<Downstream>, k: nat)
    requires |edge.targets| == |sinks| && i < |from.events|
    requires Refused(edge, w, from.events[i], sinks, k)
    requires w.sent[k] == Due(edge.targets[k], from.events[..i])
    ensures !SinkComplies(edge, from.events, sinks, k)
  {
    FailingSendIsDue(edge.targets[k], from.events, i);
  }

  lemma AtRest(edge: Edge, w: Worker)
    requires Inv(edge, w) && w.pc == Receiving
    ensures |w.sent| == |edge.targets| && forall k :: 0 <= k < |w.sent| ==>
      w.sent[k] == Due(edge.targets[k], w.received)
  {
  }

  /** Once everything was taken, compliance is decided by the acknowledgement alone. */
  lemma ComplianceIsTheAnswer(edge: Edge, w: Worker, events: seq<Event>, sinks: seq<Downstream>)
    requires LogsAre(w, sinks) && |edge.targets| == |sinks|
    requires forall k :: 0 <= k < |w.sent| ==> w.sent[k] == Due(edge.targets[k], events)
    ensures forall k :: 0 <= k < |sinks| ==>
      (SinkComplies(edge, events, sinks, k) <==> AnswersExactly(sinks[k], |w.sent[k]|))
  {
  }

  /** The loop takes an event in hand. */
  lemma TakesInHand(edge: Edge, acts: seq<Act>, w: Worker, event: Event) returns (acts': seq<Act>, w': Worker)
    requires Playable(edge, acts) && Play(edge, acts) == w && w.pc == Receiving && |w.sent| == |edge.targets|
    ensures Playable(edge, acts') && Play(edge, acts') == w' && w'.pc == SendOrReceive(edge, event, 0)
    ensures w'.sent == w.sent && w'.received == w.received + [event]
  {
    hide Play, Playable;
    acts', w' := Extend(edge, acts, w, GotEvent(event));
  }

  /** The stream broke, or ended where it should not. */
  lemma StopsReceiving(edge: Edge, acts: seq<Act>, w: Worker, ending: Ending, cause: Cause)
    returns (acts': seq<Act>, w': Worker)
    requires Playable(edge, acts) && Play(edge, acts) == w && w.pc == Receiving && |w.sent| == |edge.targets|
    requires edge.role.FanOutProcessor? || edge.role.FanOutSource?
    requires !EofIsClean(edge.role, ending) && ending != Broken(EndOfFile)
    requires cause == if ending.Broken? then ending.cause else if !ending.live then ContextCanceled else UnexpectedEof
    ensures Playable(edge, acts') && Play(edge, acts') == w' && w'.sent == w.sent && w'.received == w.received
    ensures w'.pc == Returned(Some(DeliveryError(edge.fromId, "sinks", KindOf(edge), Recv, None, cause)))
  {
    hide Play, Playable;
    acts', w' := Extend(edge, acts, w, if ending.Broken? then GotError(cause) else GotEof(ending.live));
  }

  /** The receive loop of fanOut: it stops at a clean end of stream, or with the first error. */
  method FanOutEvents(ghost edge: Edge, role: Role, from: Upstream, sinks: seq<Downstream>, fromId: string, kind: Kind)
    returns (err: Option<DeliveryError>, sent: seq<nat>, ghost acts: seq<Act>, ghost w: Worker)
    requires FanOutEdge(edge, fromId, sinks, kind) && edge.role == role
    requires from.pos == 0 && from.ending != Broken(EndOfFile)
    requires forall k :: 0 <= k < |sinks| ==> sinks[k].log == []
    modifies from, sinks
    ensures Playable(edge, acts) && Play(edge, acts) == w
    ensures from.pos <= |from.events| && w.received == from.events[..from.pos]
    ensures |w.sent| == |sinks| && forall k :: 0 <= k < |sinks| ==> sinks[k].log == w.sent[k]
    ensures err.None? ==>
      && w.pc == Receiving && EofIsClean(role, from.ending) && from.pos == |from.events|
      && LogsAre(w, sinks) && Counts(sent, w)
    ensures err.Some? ==>
      && w.pc == Returned(err)
      && (EofIsClean(role, from.ending) ==> exists k :: 0 <= k < |sinks| && !SinkComplies(edge, from.events, sinks, k))
  {
    hide Play, Playable, Due, AtMostOneInHand, Inv, SinkComplies, After, Enabled;
    acts := [];
    w := Start(edge);
    PlayNothing(edge);
    sent := seq(|sinks|, _ => 0);
    while true
      invariant from.pos <= |from.events| && w.received == from.events[..from.pos]
      invariant Playable(edge, acts) && Play(edge, acts) == w && w.pc == Receiving
      invariant LogsAre(w, sinks) && Counts(sent, w)
      decreases |from.events| - from.pos
    {
      PlayKeepsInv(edge, acts);
      AtRest(edge, w);
      ghost var at, before := from.pos, w;
      var got := Receive(role, from);
      match got {
        case AtEof =>
          return None, sent, acts, w;
        case Failed(cause) =>
          acts, w := StopsReceiving(edge, acts, w, from.ending, cause);
          return Some(DeliveryError(fromId, "sinks", kind, Recv, None, cause)), sent, acts, w;
        case Got(event) =>
          acts, w := TakesInHand(edge, acts, w, event);
          ghost var refusing: nat;
          err, sent, acts, w, refusing := SendToAll(edge, event, sinks, sent, fromId, kind, acts, w);
          if err.Some? {
            RefusalBreaksCompliance(edge, before, from, at, sinks, refusing);
            return;
          }
      }
    }
  }

  /**
   fanOut. It returns nil exactly if the input ended cleanly and every sink took everything it was due and
   acknowledged exactly that; then every sink holds exactly the accepted events, in order, and is closed.
   */
  method FanOut(ghost edge: Edge, role: Role, from: Upstream, sinks: seq<Downstream>, fromId: string, kind: Kind)
    returns (err: Option<DeliveryError>, ghost acts: seq<Act>)
    requires FanOutEdge(edge, fromId, sinks, kind) && edge.role == role
    requires from.pos == 0 && from.ending != Broken(EndOfFile)
    requires forall k :: 0 <= k < |sinks| ==> sinks[k].log == []
    modifies from, sinks
    ensures Playable(edge, acts) && Play(edge, acts).pc == Returned(err)
    ensures from.pos <= |from.events| && Play(edge, acts).received == from.events[..from.pos]
    ensures |Play(edge, acts).sent| == |sinks| && forall k :: 0 <= k < |sinks| ==>
      sinks[k].log == Play(edge, acts).sent[k]
    ensures err.None? <==>
      EofIsClean(role, from.ending) && forall k :: 0 <= k < |sinks| ==> SinkComplies(edge, from.events, sinks, k)
    ensures err.None? ==>
      forall k :: 0 <= k < |sinks| ==> sinks[k].log == Due(edge.targets[k], from.events) && sinks[k].closed
  {
    hide Play, Playable, Due, AtMostOneInHand, Inv, SinkComplies, AnswersExactly;
    ghost var w: Worker;
    var sent: seq<nat>;
    err, sent, acts, w := FanOutEvents(edge, role, from, sinks, fromId, kind);
    if err.Some? {
      return;
    }
    PlayKeepsInv(edge, acts);
    AtRest(edge, w);
    assert w.received == from.events;
    ComplianceIsTheAnswer(edge, w, from.events, sinks);
    acts, w := Extend(edge, acts, w, GotEof(from.ending.live));
    err, acts, w := CloseAll(edge, sinks, sent, fromId, kind, acts, w);
  }
}
