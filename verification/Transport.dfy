/** Events, transport errors and the edges that the stream orchestrator supervises. */
module Transport {
  import opened Wrappers

  datatype Event = Event(id: string, eventType: string, payload: string)

  // ---------- Errors ----------

  /** The gRPC status codes the orchestrator distinguishes; every other code is `Other`. */
  datatype Code = Canceled | DeadlineExceeded | Unknown | Other(number: nat)

  /** What an operation on a stream reports when it fails. */
  datatype Cause =
    | Status(code: Code)
    | ContextCanceled
    | ContextDeadlineExceeded
    | EndOfFile
    | UnexpectedEof
    | MissingResponse
    | Miscounted

  /** `status.Code`: an error that is not a gRPC status reads as Unknown. */
  function StatusCode(c: Cause): Code {
    if c.Status? then c.code else Unknown
  }

  /** `errors.Is(err, context.Canceled) || status.Code(err) == codes.Canceled`. */
  predicate SaysCanceled(c: Cause) {
    c == ContextCanceled || StatusCode(c) == Canceled
  }

  /** The errors `launch` forgives when the context is already over. */
  predicate Forgivable(c: Cause) {
    SaysCanceled(c) || StatusCode(c) == DeadlineExceeded
  }

  datatype Kind = SourceProcessor | ProcessorProcessor | ProcessorSink | SourceSink | ProcessorWiring

  datatype Operation = Recv | RecvUnexpectedEof | Send | Close | CloseAcknowledgement | Registration | Connect | Open

  /** Identifies the edge and the operation that failed. */
  datatype DeliveryError = DeliveryError(
    from: string, to: string, kind: Kind, operation: Operation, event: Option<Event>, cause: Cause)

  // ---------- Edges ----------

  /** A sink's answer to CloseAndRecv. */
  datatype Response = Response(consumed: int, failed: int, errors: nat)

  /** Where an edge sends. A sink carries the event types it accepts; a processor takes every event. */
  datatype Target =
    | Processor(id: string, stream: nat)
    | Sink(id: string, stream: nat, types: seq<string>)

  /** Which loop runs the edge. A source declares whether it is finite. */
  datatype Role =
    | ForwardSource(bounded: bool)
    | Forward
    | FanOutProcessor
    | FanOutSource(bounded: bool)

  /** One supervised forwarding loop: it receives from one stream and sends to its targets, in order. */
  datatype Edge = Edge(role: Role, chain: nat, fromId: string, from: nat, targets: seq<Target>)

  function KindOf(e: Edge): Kind {
    match e.role
    case ForwardSource(_) => SourceProcessor
    case Forward => ProcessorProcessor
    case FanOutProcessor => ProcessorSink
    case FanOutSource(_) => SourceSink
  }

  /** An empty list of accepted types accepts everything. */
  predicate Accepts(types: seq<string>, eventType: string) {
    |types| == 0 || eventType in types
  }

  predicate Takes(t: Target, e: Event) {
    t.Processor? || Accepts(t.types, e.eventType)
  }

  /** The events of `es` that target `t` is due, in order. */
  function Due(t: Target, es: seq<Event>): seq<Event> {
    if es == [] then []
    else
      var rest := Due(t, es[..|es| - 1]);
      if Takes(t, es[|es| - 1]) then rest + [es[|es| - 1]] else rest
  }

  /** A processor is due everything its upstream emitted. */
  lemma {:induction false} ProcessorIsDueEverything(t: Target, es: seq<Event>)
    requires t.Processor?
    ensures Due(t, es) == es
  {
    if es != [] {
      ProcessorIsDueEverything(t, es[..|es| - 1]);
      assert es == es[..|es| - 1] + [es[|es| - 1]];
    }
  }

  /**
   A target is due an event exactly when it was received and is accepted: by a processor, by a sink that lists no types,
   and by a sink that lists the event's type.
   */
  lemma {:induction false} DueExactlyTheAccepted(t: Target, es: seq<Event>, e: Event)
    ensures e in Due(t, es) <==> e in es && (t.Processor? || t.types == [] || e.eventType in t.types)
    ensures |Due(t, es)| <= |es|
  {
    if es != [] {
      DueExactlyTheAccepted(t, es[..|es| - 1], e);
      assert es == es[..|es| - 1] + [es[|es| - 1]];
    }
  }

  /** What is due is due in order and as often as it was received: event by event, each once or not at all. */
  lemma {:induction false} DueInOrder(t: Target, es: seq<Event>, fs: seq<Event>, e: Event)
    ensures Due(t, es + fs) == Due(t, es) + Due(t, fs)
    ensures Due(t, [e]) == if t.Processor? || t.types == [] || e.eventType in t.types then [e] else []
    decreases |fs|
  {
    assert [e][..0] == [];
    if fs == [] {
      assert es + fs == es;
    } else {
      var init, last := fs[..|fs| - 1], fs[|fs| - 1];
      DueInOrder(t, es, init, e);
      assert (es + fs)[..|es + fs| - 1] == es + init && (es + fs)[|es + fs| - 1] == last;
    }
  }
}
