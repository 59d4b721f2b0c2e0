/**
 WireAll: for every source it opens a stream to the source, one stream of its own to every processor and one to
 every sink, then launches the edges of that chain in order.
 */
module Wiring {
  import opened Wrappers
  import opened Transport

  datatype Component = Component(id: string, inputs: seq<string>, bounded: bool)

  datatype Pipeline = Pipeline(sources: seq<Component>, processors: seq<Component>, sinks: seq<Component>)

  /** Which call of the wiring of one source; each is made at most once per source and component. */
  datatype Attempt = Attempt(chain: nat, position: nat, stage: Operation)

  /** What the outside answers: the event types components registered with, and the calls that fail. */
  datatype Outside = Outside(registry: map<string, seq<string>>, broken: map<Attempt, Cause>)

  /** A stream that was opened: for which source's chain, to which component. */
  datatype Opened = Opened(chain: nat, component: string)

  datatype WireError = AlreadyWired | NeedsSourcesAndSinks | NoSinkDeclares(source: string) | Failed(err: DeliveryError)

  // ---------- The edges wiring stands for ----------

  /** Without processors a sink is fed only by the sources among its inputs. */
  predicate Routed(p: Pipeline, c: nat, sink: Component)
    requires c < |p.sources|
  {
    p.processors != [] || p.sources[c].id in sink.inputs
  }

  /** The sinks of source c's chain among the first n. */
  function ChainSinks(p: Pipeline, c: nat, n: nat): seq<Component>
    requires c < |p.sources| && n <= |p.sinks|
  {
    if n == 0 then []
    else ChainSinks(p, c, n - 1) + if Routed(p, c, p.sinks[n - 1]) then [p.sinks[n - 1]] else []
  }

  /** One stream of source c's chain to each of these components. */
  function StreamsTo(c: nat, components: seq<Component>): (r: seq<Opened>)
    ensures |r| == |components|
  {
    if components == [] then []
    else StreamsTo(c, components[..|components| - 1]) + [Opened(c, components[|components| - 1].id)]
  }

  /** The streams opened for source c's chain, in order. */
  function ChainStreams(p: Pipeline, c: nat): seq<Opened>
    requires c < |p.sources|
  {
    [Opened(c, p.sources[c].id)] + StreamsTo(c, p.processors) + StreamsTo(c, ChainSinks(p, c, |p.sinks|))
  }

  function Types(out: Outside, id: string): seq<string> {
    if id in out.registry then out.registry[id] else []
  }

  /** The sinks' streams are numbered from `first`. */
  function SinkTargets(out: Outside, sinks: seq<Component>, first: nat): (r: seq<Target>)
    ensures |r| == |sinks|
  {
    if sinks == [] then []
    else
      var k := |sinks| - 1;
      SinkTargets(out, sinks[..k], first) + [Sink(sinks[k].id, first + k, Types(out, sinks[k].id))]
  }

  /** Edge i of source c's chain when the chain's first stream has number `base`. */
  function ChainEdge(p: Pipeline, out: Outside, c: nat, base: nat, i: nat): Edge
    requires c < |p.sources| && i <= |p.processors|
  {
    var n := |p.processors|;
    if i < n then
      var role := if i == 0 then ForwardSource(p.sources[c].bounded) else Forward;
      var from := if i == 0 then p.sources[c].id else p.processors[i - 1].id;
      Edge(role, c, from, base + i, [Processor(p.processors[i].id, base + i + 1)])
    else
      var role := if n == 0 then FanOutSource(p.sources[c].bounded) else FanOutProcessor;
      var from := if n == 0 then p.sources[c].id else p.processors[n - 1].id;
      Edge(role, c, from, base + n, SinkTargets(out, ChainSinks(p, c, |p.sinks|), base + 1 + n))
  }

  /** The first m edges of source c's chain. */
  function ChainEdges(p: Pipeline, out: Outside, c: nat, base: nat, m: nat): (r: seq<Edge>)
    requires c < |p.sources| && m <= |p.processors| + 1
    ensures |r| == m
  {
    if m == 0 then [] else ChainEdges(p, out, c, base, m - 1) + [ChainEdge(p, out, c, base, m - 1)]
  }

  function StreamsUpTo(p: Pipeline, n: nat): seq<Opened>
    requires n <= |p.sources|
  {
    if n == 0 then [] else StreamsUpTo(p, n - 1) + ChainStreams(p, n - 1)
  }

  /** The edges of the first n sources. */
  function EdgesUpTo(p: Pipeline, out: Outside, n: nat): seq<Edge>
    requires n <= |p.sources|
  {
    if n == 0 then []
    else EdgesUpTo(p, out, n - 1) + ChainEdges(p, out, n - 1, |StreamsUpTo(p, n - 1)|, |p.processors| + 1)
  }

  /** A stream to this component can be opened: it is registered and none of the three calls fails. */
  predicate CanOpen(out: Outside, c: nat, position: nat, id: string) {
    && id in out.registry
    && Attempt(c, position, Registration) !in out.broken
    && Attempt(c, position, Connect) !in out.broken
    && Attempt(c, position, Open) !in out.broken
  }

  predicate CanOpenProcessors(p: Pipeline, out: Outside, c: nat) {
    forall i :: 0 <= i < |p.processors| ==> CanOpen(out, c, 1 + i, p.processors[i].id)
  }

  /** Sink k is not routed to source c, or a stream to it can be opened. */
  predicate CanOpenSink(p: Pipeline, out: Outside, c: nat, k: nat)
    requires c < |p.sources| && k < |p.sinks|
  {
    Routed(p, c, p.sinks[k]) ==> CanOpen(out, c, 1 + |p.processors| + k, p.sinks[k].id)
  }

  predicate CanOpenSinks(p: Pipeline, out: Outside, c: nat)
    requires c < |p.sources|
  {
    forall k :: 0 <= k < |p.sinks| ==> CanOpenSink(p, out, c, k)
  }

  /** Everything source c's chain needs can be opened, and without processors some sink is routed to it. */
  predicate CanWire(p: Pipeline, out: Outside, c: nat)
    requires c < |p.sources|
  {
    && CanOpen(out, c, 0, p.sources[c].id) && CanOpenProcessors(p, out, c) && CanOpenSinks(p, out, c)
    && (p.processors == [] ==> ChainSinks(p, c, |p.sinks|) != [])
  }

  // ---------- Ownership of streams ----------

  /** Every stream an edge touches was opened for the edge's own source. */
  predicate OwnEdge(e: Edge, streams: seq<Opened>) {
    && e.from < |streams| && streams[e.from].chain == e.chain
    && forall k :: 0 <= k < |e.targets| ==>
         e.targets[k].stream < |streams| && streams[e.targets[k].stream].chain == e.chain
  }

  predicate OwnStreams(edges: seq<Edge>, streams: seq<Opened>) {
    forall i :: 0 <= i < |edges| ==> OwnEdge(edges[i], streams)
  }

  /** Two edges share neither a stream they receive from nor a stream they send to. */
  predicate Apart(e: Edge, f: Edge) {
    && e.from != f.from
    && forall k, l :: 0 <= k < |e.targets| && 0 <= l < |f.targets| ==> e.targets[k].stream != f.targets[l].stream
  }

  predicate DistinctTargets(e: Edge) {
    forall k, l :: 0 <= k < l < |e.targets| ==> e.targets[k].stream != e.targets[l].stream
  }

  /** No stream has two receivers, and none has two senders. */
  predicate Exclusive(edges: seq<Edge>) {
    && (forall i :: 0 <= i < |edges| ==> DistinctTargets(edges[i]))
    && forall i, j :: 0 <= i < j < |edges| ==> Apart(edges[i], edges[j])
  }

  /** Every stream of an edge lies in [lo, hi). */
  predicate Within(edge: Edge, lo: nat, hi: nat) {
    lo <= edge.from < hi && forall k :: 0 <= k < |edge.targets| ==> lo <= edge.targets[k].stream < hi
  }

  lemma {:induction false} ChainEdgeAt(p: Pipeline, out: Outside, c: nat, base: nat, m: nat, i: nat)
    requires c < |p.sources| && i < m <= |p.processors| + 1
    ensures ChainEdges(p, out, c, base, m)[i] == ChainEdge(p, out, c, base, i)
  {
    if i < m - 1 {
      ChainEdgeAt(p, out, c, base, m - 1, i);
    }
  }

  lemma {:induction false} TargetAt(out: Outside, sinks: seq<Component>, first: nat, k: nat)
    requires k < |sinks|
    ensures SinkTargets(out, sinks, first)[k].stream == first + k
  {
    if k < |sinks| - 1 {
      TargetAt(out, sinks[..|sinks| - 1], first, k);
    }
  }

  lemma {:induction false} StreamsToOwn(c: nat, components: seq<Component>)
    ensures forall k :: 0 <= k < |components| ==> StreamsTo(c, components)[k].chain == c
  {
    if components != [] {
      StreamsToOwn(c, components[..|components| - 1]);
    }
  }

  lemma ChainWithin(p: Pipeline, out: Outside, c: nat, base: nat, i: nat)
    requires c < |p.sources| && i <= |p.processors|
    ensures Within(ChainEdge(p, out, c, base, i), base, base + |ChainStreams(p, c)|)
    ensures DistinctTargets(ChainEdge(p, out, c, base, i))
  {
    if i == |p.processors| {
      var sinks := ChainSinks(p, c, |p.sinks|);
      var first := base + 1 + i;
      forall k | 0 <= k < |sinks| ensures SinkTargets(out, sinks, first)[k].stream == first + k {
        TargetAt(out, sinks, first, k);
      }
    }
  }

  lemma ChainApart(p: Pipeline, out: Outside, c: nat, base: nat, i: nat, j: nat)
    requires c < |p.sources| && i < j <= |p.processors|
    ensures Apart(ChainEdge(p, out, c, base, i), ChainEdge(p, out, c, base, j))
  {
    var e, f := ChainEdge(p, out, c, base, i), ChainEdge(p, out, c, base, j);
    if j == |p.processors| {
      forall l | 0 <= l < |f.targets| ensures e.targets[0].stream != f.targets[l].stream {
        TargetAt(out, ChainSinks(p, c, |p.sinks|), base + 1 + j, l);
      }
    }
  }

  lemma ChainExclusive(p: Pipeline, out: Outside, c: nat, base: nat)
    requires c < |p.sources|
    ensures Exclusive(ChainEdges(p, out, c, base, |p.processors| + 1))
  {
    var m := |p.processors| + 1;
    var edges := ChainEdges(p, out, c, base, m);
    forall i | 0 <= i < m ensures DistinctTargets(edges[i]) {
      ChainEdgeAt(p, out, c, base, m, i);
      ChainWithin(p, out, c, base, i);
    }
    forall i, j | 0 <= i < j < m ensures Apart(edges[i], edges[j]) {
      ChainEdgeAt(p, out, c, base, m, i);
      ChainEdgeAt(p, out, c, base, m, j);
      ChainApart(p, out, c, base, i, j);
    }
  }

  /** Edges on streams below `mid` are apart from edges on streams from `mid` on. */
  lemma ExclusiveConcat(a: seq<Edge>, b: seq<Edge>, mid: nat, hi: nat)
    requires Exclusive(a) && Exclusive(b)
    requires forall i :: 0 <= i < |a| ==> Within(a[i], 0, mid)
    requires forall i :: 0 <= i < |b| ==> Within(b[i], mid, hi)
    ensures Exclusive(a + b)
  {
    forall i, j | 0 <= i < j < |a + b| ensures Apart((a + b)[i], (a + b)[j]) {
      if i < |a| <= j {
        assert Within(a[i], 0, mid) && Within(b[j - |a|], mid, hi);
      }
    }
  }

  /** What holds of the edges wired so far over the streams opened so far. */
  predicate Sound(edges: seq<Edge>, streams: seq<Opened>) {
    OwnStreams(edges, streams) && Exclusive(edges)
  }

  /** `chain` is a chain of source c on the streams `added`, numbered from `base`. */
  predicate ChainOn(chain: seq<Edge>, base: nat, added: seq<Opened>, c: nat) {
    && Exclusive(chain)
    && (forall i :: 0 <= i < |chain| ==> Within(chain[i], base, base + |added|) && chain[i].chain == c)
    && forall k :: 0 <= k < |added| ==> added[k].chain == c
  }

  /** Appending a chain on streams of its own keeps the wiring sound. */
  lemma AppendChain(edges: seq<Edge>, streams: seq<Opened>, chain: seq<Edge>, added: seq<Opened>, c: nat)
    requires Sound(edges, streams) && ChainOn(chain, |streams|, added, c)
    ensures Sound(edges + chain, streams + added)
  {
    forall i | 0 <= i < |edges| ensures Within(edges[i], 0, |streams|) && OwnEdge(edges[i], streams + added) {
      assert OwnEdge(edges[i], streams);
    }
    forall i | 0 <= i < |chain| ensures OwnEdge(chain[i], streams + added) {
      assert Within(chain[i], |streams|, |streams| + |added|);
    }
    ExclusiveConcat(edges, chain, |streams|, |streams| + |added|);
  }

  lemma ChainFits(p: Pipeline, out: Outside, c: nat, base: nat)
    requires c < |p.sources|
    ensures ChainOn(ChainEdges(p, out, c, base, |p.processors| + 1), base, ChainStreams(p, c), c)
  {
    var m := |p.processors| + 1;
    var edges := ChainEdges(p, out, c, base, m);
    forall i | 0 <= i < m ensures Within(edges[i], base, base + |ChainStreams(p, c)|) && edges[i].chain == c {
      ChainEdgeAt(p, out, c, base, m, i);
      ChainWithin(p, out, c, base, i);
    }
    ChainExclusive(p, out, c, base);
    StreamsToOwn(c, p.processors);
    StreamsToOwn(c, ChainSinks(p, c, |p.sinks|));
  }

  lemma {:induction false} EdgesAreSound(p: Pipeline, out: Outside, n: nat)
    requires n <= |p.sources|
    ensures Sound(EdgesUpTo(p, out, n), StreamsUpTo(p, n))
  {
    hide ChainEdges, ChainStreams, Sound;
    if n == 0 {
      NothingIsSound();
    } else {
      EdgesAreSound(p, out, n - 1);
      NextChainIsSound(p, out, n - 1, EdgesUpTo(p, out, n - 1), StreamsUpTo(p, n - 1));
    }
  }

  lemma NothingIsSound()
    ensures Sound([], [])
  {
  }

  lemma NextChainIsSound(p: Pipeline, out: Outside, c: nat, edges: seq<Edge>, streams: seq<Opened>)
    requires c < |p.sources| && Sound(edges, streams)
    ensures Sound(edges + ChainEdges(p, out, c, |streams|, |p.processors| + 1), streams + ChainStreams(p, c))
  {
    ChainFits(p, out, c, |streams|);
    AppendChain(edges, streams, ChainEdges(p, out, c, |streams|, |p.processors| + 1), ChainStreams(p, c), c);
  }

  /**
   Each source owns its own streams: no edge touches a stream opened for another source, and no stream is shared
   by two senders or two receivers.
   */
  lemma WiringKeepsChainsApart(p: Pipeline, out: Outside)
    ensures OwnStreams(EdgesUpTo(p, out, |p.sources|), StreamsUpTo(p, |p.sources|))
    ensures Exclusive(EdgesUpTo(p, out, |p.sources|))
  {
    EdgesAreSound(p, out, |p.sources|);
  }

  /** Within a chain, every edge but the last feeds exactly the processor stream that the next edge receives from. */
  lemma ChainLinks(p: Pipeline, out: Outside, c: nat, base: nat, i: nat)
    requires c < |p.sources| && i < |p.processors|
    ensures var edges := ChainEdges(p, out, c, base, |p.processors| + 1);
            edges[i].targets == [Processor(p.processors[i].id, edges[i + 1].from)]
  {
    ChainEdgeAt(p, out, c, base, |p.processors| + 1, i);
    ChainEdgeAt(p, out, c, base, |p.processors| + 1, i + 1);
  }

  // ---------- The chain, component by component ----------

  /** Edge i of source c's chain stands right after the edges of the sources before it. */
  lemma {:induction false} PlanAt(p: Pipeline, out: Outside, n: nat, c: nat, i: nat)
    requires c < n <= |p.sources| && i <= |p.processors|
    ensures |EdgesUpTo(p, out, c)| + i < |EdgesUpTo(p, out, n)|
    ensures EdgesUpTo(p, out, n)[|EdgesUpTo(p, out, c)| + i] == ChainEdge(p, out, c, |StreamsUpTo(p, c)|, i)
    decreases n
  {
    hide ChainEdge, ChainEdges, StreamsUpTo;
    if c == n - 1 {
      ChainEdgeAt(p, out, c, |StreamsUpTo(p, c)|, |p.processors| + 1, i);
    } else {
      PlanAt(p, out, n - 1, c, i);
    }
  }

  /** Each source before c has an edge for every processor and one for the sinks. */
  function FirstEdge(p: Pipeline, c: nat): nat {
    c * (|p.processors| + 1)
  }

  lemma FirstEdgeStep(p: Pipeline, c: nat)
    ensures FirstEdge(p, 0) == 0 && FirstEdge(p, c + 1) == FirstEdge(p, c) + |p.processors| + 1
  {
  }

  lemma {:induction false} PlanLength(p: Pipeline, out: Outside, n: nat)
    requires n <= |p.sources|
    ensures |EdgesUpTo(p, out, n)| == FirstEdge(p, n)
  {
    hide ChainEdges, FirstEdge, StreamsUpTo;
    if n == 0 {
      FirstEdgeStep(p, 0);
    } else {
      PlanLength(p, out, n - 1);
      FirstEdgeStep(p, n - 1);
    }
  }

  lemma {:induction false} StreamsAt(p: Pipeline, n: nat, c: nat, j: nat)
    requires c < n <= |p.sources| && j < |ChainStreams(p, c)|
    ensures |StreamsUpTo(p, c)| + j < |StreamsUpTo(p, n)|
    ensures StreamsUpTo(p, n)[|StreamsUpTo(p, c)| + j] == ChainStreams(p, c)[j]
    decreases n
  {
    hide ChainStreams;
    if c < n - 1 {
      StreamsAt(p, n - 1, c, j);
    }
  }

  lemma {:induction false} StreamsToAt(c: nat, components: seq<Component>, k: nat)
    requires k < |components|
    ensures StreamsTo(c, components)[k] == Opened(c, components[k].id)
  {
    if k < |components| - 1 {
      StreamsToAt(c, components[..|components| - 1], k);
    }
  }

  lemma {:induction false} SinkTargetAt(out: Outside, sinks: seq<Component>, first: nat, k: nat)
    requires k < |sinks|
    ensures SinkTargets(out, sinks, first)[k] == Sink(sinks[k].id, first + k, Types(out, sinks[k].id))
  {
    if k < |sinks| - 1 {
      SinkTargetAt(out, sinks[..|sinks| - 1], first, k);
    }
  }

  /** Which stream was opened for source c to this component. */
  predicate Carries(streams: seq<Opened>, stream: nat, c: nat, id: string) {
    stream < |streams| && streams[stream] == Opened(c, id)
  }

  /** The id of the component right before processor i of a chain, or before its sinks. */
  function Upstream(p: Pipeline, c: nat, i: nat): string
    requires c < |p.sources| && i <= |p.processors|
  {
    if i == 0 then p.sources[c].id else p.processors[i - 1].id
  }

  /** Edge i of source c's chain forwards from the component before it to processor i. */
  predicate HopLaid(p: Pipeline, streams: seq<Opened>, c: nat, i: nat, edges: seq<Edge>, first: nat)
    requires c < |p.sources| && i < |p.processors|
  {
    && first + i < |edges|
    && var e := edges[first + i];
    && e.chain == c && e.fromId == Upstream(p, c, i) && Carries(streams, e.from, c, Upstream(p, c, i))
    && e.role == (if i == 0 then ForwardSource(p.sources[c].bounded) else Forward)
    && |e.targets| == 1 && e.targets[0].Processor? && e.targets[0].id == p.processors[i].id
    && Carries(streams, e.targets[0].stream, c, p.processors[i].id)
  }

  /** Sink target j stands for this sink of the pipeline, with the types it registered. */
  predicate StandsFor(out: Outside, streams: seq<Opened>, c: nat, t: Target, sink: Component) {
    && t.Sink? && t.id == sink.id && sink.id in out.registry && t.types == out.registry[sink.id]
    && Carries(streams, t.stream, c, sink.id)
  }

  /** The targets stand for the sinks of these positions, in order. */
  predicate StandFor(p: Pipeline, out: Outside, streams: seq<Opened>, c: nat, targets: seq<Target>, at: seq<nat>) {
    && |at| == |targets|
    && (forall i, j :: 0 <= i < j < |at| ==> at[i] < at[j])
    && forall j :: 0 <= j < |at| ==> at[j] < |p.sinks| && StandsFor(out, streams, c, targets[j], p.sinks[at[j]])
  }

  /**
   The last edge of source c's chain fans out: behind processors to every sink of the pipeline, and straight from the
   source to exactly the sinks that name it among their inputs.
   */
  ghost predicate FanOutLaid(p: Pipeline, out: Outside, streams: seq<Opened>, c: nat, e: Edge)
    requires c < |p.sources|
  {
    var n := |p.processors|;
    && e.chain == c && e.fromId == Upstream(p, c, n) && Carries(streams, e.from, c, Upstream(p, c, n))
    && e.role == (if n == 0 then FanOutSource(p.sources[c].bounded) else FanOutProcessor)
    && (n > 0 ==>
          && |e.targets| == |p.sinks|
          && forall k :: 0 <= k < |p.sinks| ==> StandsFor(out, streams, c, e.targets[k], p.sinks[k]))
    && (n == 0 ==> exists at: seq<nat> ::
          && StandFor(p, out, streams, c, e.targets, at)
          && forall k :: 0 <= k < |p.sinks| ==> (k in at <==> p.sources[c].id in p.sinks[k].inputs))
  }

  /** The edges of source c's chain, found among all edges by counting. */
  ghost predicate ChainLaid(p: Pipeline, out: Outside, edges: seq<Edge>, streams: seq<Opened>, c: nat)
    requires c < |p.sources|
  {
    var n, first := |p.processors|, FirstEdge(p, c);
    && first + n < |edges|
    && (forall i :: 0 <= i < n ==> HopLaid(p, streams, c, i, edges, first))
    && FanOutLaid(p, out, streams, c, edges[first + n])
  }

  /** The positions of a chain's sinks: all of them behind processors, else those that name the source. */
  lemma {:induction false} SinksOfChain(p: Pipeline, c: nat, n: nat) returns (at: seq<nat>)
    requires c < |p.sources| && n <= |p.sinks|
    ensures |at| == |ChainSinks(p, c, n)| && forall i, j :: 0 <= i < j < |at| ==> at[i] < at[j]
    ensures forall j :: 0 <= j < |at| ==> at[j] < n && ChainSinks(p, c, n)[j] == p.sinks[at[j]]
    ensures forall k :: 0 <= k < n ==> (k in at <==> p.processors != [] || p.sources[c].id in p.sinks[k].inputs)
  {
    hide ChainSinks;
    NextSink(p, c, n);
    if n == 0 {
      at := [];
    } else {
      var before := SinksOfChain(p, c, n - 1);
      if p.processors != [] || p.sources[c].id in p.sinks[n - 1].inputs {
        at := before + [n - 1];
        assert forall k :: k in at <==> k in before || k == n - 1;
      } else {
        at := before;
      }
    }
  }

  /** Behind processors a chain has every sink. */
  lemma {:induction false} AllSinksOfChain(p: Pipeline, c: nat, n: nat)
    requires c < |p.sources| && n <= |p.sinks| && p.processors != []
    ensures ChainSinks(p, c, n) == p.sinks[..n]
  {
    hide ChainSinks;
    NextSink(p, c, n);
    if n > 0 {
      AllSinksOfChain(p, c, n - 1);
      assert p.sinks[..n] == p.sinks[..n - 1] + [p.sinks[n - 1]];
    }
  }

  lemma NextSink(p: Pipeline, c: nat, n: nat)
    requires c < |p.sources| && n <= |p.sinks|
    ensures ChainSinks(p, c, n) ==
            if n == 0 then []
            else if p.processors != [] || p.sources[c].id in p.sinks[n - 1].inputs
            then ChainSinks(p, c, n - 1) + [p.sinks[n - 1]]
            else ChainSinks(p, c, n - 1)
  {
  }

  lemma HopIsLaid(p: Pipeline, out: Outside, c: nat, i: nat)
    requires c < |p.sources| && i < |p.processors|
    ensures HopLaid(p, StreamsUpTo(p, |p.sources|), c, i, EdgesUpTo(p, out, |p.sources|), |EdgesUpTo(p, out, c)|)
  {
    hide EdgesUpTo, StreamsUpTo, StreamsTo, ChainSinks, SinkTargets;
    PlanAt(p, out, |p.sources|, c, i);
    StreamsAt(p, |p.sources|, c, i);
    StreamsAt(p, |p.sources|, c, i + 1);
    StreamsToAt(c, p.processors, i);
    if i > 0 {
      StreamsToAt(c, p.processors, i - 1);
    }
  }

  lemma FanOutStarts(p: Pipeline, out: Outside, c: nat)
    requires c < |p.sources|
    ensures var n, e := |p.processors|, ChainEdge(p, out, c, |StreamsUpTo(p, c)|, |p.processors|);
            && e.chain == c && e.fromId == Upstream(p, c, n)
            && Carries(StreamsUpTo(p, |p.sources|), e.from, c, Upstream(p, c, n))
            && e.role == (if n == 0 then FanOutSource(p.sources[c].bounded) else FanOutProcessor)
            && e.targets == SinkTargets(out, ChainSinks(p, c, |p.sinks|), |StreamsUpTo(p, c)| + 1 + n)
  {
    hide StreamsUpTo, StreamsTo, ChainSinks, SinkTargets;
    var n := |p.processors|;
    StreamsAt(p, |p.sources|, c, n);
    if n > 0 {
      StreamsToAt(c, p.processors, n - 1);
    }
  }

  lemma FanOutIsLaid(p: Pipeline, out: Outside, c: nat)
    requires c < |p.sources| && CanWire(p, out, c)
    ensures FanOutLaid(p, out, StreamsUpTo(p, |p.sources|), c,
                       ChainEdge(p, out, c, |StreamsUpTo(p, c)|, |p.processors|))
  {
    hide StreamsUpTo, StreamsTo, ChainSinks, ChainStreams, SinkTargets, ChainEdge, CanWire, StandsFor, StandFor;
    hide Upstream, Carries;
    FanOutStarts(p, out, c);
    if p.processors != [] {
      AllSinksStand(p, out, c);
    } else {
      var at := NamedSinksStand(p, out, c);
    }
  }

  lemma AllSinksStand(p: Pipeline, out: Outside, c: nat)
    requires c < |p.sources| && CanWire(p, out, c) && p.processors != []
    ensures var targets := SinkTargets(out, ChainSinks(p, c, |p.sinks|), |StreamsUpTo(p, c)| + 1 + |p.processors|);
            && |targets| == |p.sinks|
            && forall k :: 0 <= k < |p.sinks| ==>
                 StandsFor(out, StreamsUpTo(p, |p.sources|), c, targets[k], p.sinks[k])
  {
    hide StreamsUpTo, StreamsTo, ChainSinks, ChainStreams, SinkTargets, CanWire, StandsFor;
    AllSinksOfChain(p, c, |p.sinks|);
    assert p.sinks[..|p.sinks|] == p.sinks;
    var targets := SinkTargets(out, ChainSinks(p, c, |p.sinks|), |StreamsUpTo(p, c)| + 1 + |p.processors|);
    forall k | 0 <= k < |p.sinks|
      ensures StandsFor(out, StreamsUpTo(p, |p.sources|), c, targets[k], p.sinks[k])
    {
      TargetStands(p, out, c, k, k);
    }
  }

  lemma NamedSinksStand(p: Pipeline, out: Outside, c: nat) returns (at: seq<nat>)
    requires c < |p.sources| && CanWire(p, out, c) && p.processors == []
    ensures StandFor(p, out, StreamsUpTo(p, |p.sources|), c,
                     SinkTargets(out, ChainSinks(p, c, |p.sinks|), |StreamsUpTo(p, c)| + 1 + |p.processors|), at)
    ensures forall k :: 0 <= k < |p.sinks| ==> (k in at <==> p.sources[c].id in p.sinks[k].inputs)
  {
    hide StreamsUpTo, StreamsTo, ChainSinks, ChainStreams, SinkTargets, CanWire, StandsFor;
    at := SinksOfChain(p, c, |p.sinks|);
    var sinks := ChainSinks(p, c, |p.sinks|);
    var targets := SinkTargets(out, sinks, |StreamsUpTo(p, c)| + 1 + |p.processors|);
    forall j | 0 <= j < |at| ensures StandsFor(out, StreamsUpTo(p, |p.sources|), c, targets[j], p.sinks[at[j]]) {
      assert at[j] in at;
      TargetStands(p, out, c, j, at[j]);
    }
  }

  lemma TargetStands(p: Pipeline, out: Outside, c: nat, j: nat, k: nat)
    requires c < |p.sources| && CanWire(p, out, c) && j < |ChainSinks(p, c, |p.sinks|)| && k < |p.sinks|
    requires ChainSinks(p, c, |p.sinks|)[j] == p.sinks[k]
    requires p.processors != [] || p.sources[c].id in p.sinks[k].inputs
    ensures StandsFor(out, StreamsUpTo(p, |p.sources|), c,
                      SinkTargets(out, ChainSinks(p, c, |p.sinks|), |StreamsUpTo(p, c)| + 1 + |p.processors|)[j],
                      p.sinks[k])
  {
    hide StreamsUpTo, StreamsTo, ChainSinks, SinkTargets, CanOpenProcessors;
    var sinks := ChainSinks(p, c, |p.sinks|);
    StreamsAt(p, |p.sources|, c, 1 + |p.processors| + j);
    StreamsToAt(c, sinks, j);
    SinkTargetAt(out, sinks, |StreamsUpTo(p, c)| + 1 + |p.processors|, j);
    SinkIsRegistered(p, out, c, k);
  }

  lemma SinkIsRegistered(p: Pipeline, out: Outside, c: nat, k: nat)
    requires c < |p.sources| && k < |p.sinks| && CanOpenSinks(p, out, c)
    requires p.processors != [] || p.sources[c].id in p.sinks[k].inputs
    ensures p.sinks[k].id in out.registry
  {
    assert CanOpenSink(p, out, c, k);
  }

  /** Wiring lays every chain in full. */
  lemma WiringLaysChains(p: Pipeline, out: Outside, c: nat)
    requires c < |p.sources| && CanWire(p, out, c)
    ensures ChainLaid(p, out, EdgesUpTo(p, out, |p.sources|), StreamsUpTo(p, |p.sources|), c)
  {
    hide EdgesUpTo, StreamsUpTo, ChainEdge, HopLaid, FanOutLaid, CanWire, FirstEdge;
    PlanLength(p, out, c);
    forall i | 0 <= i < |p.processors|
      ensures HopLaid(p, StreamsUpTo(p, |p.sources|), c, i, EdgesUpTo(p, out, |p.sources|), |EdgesUpTo(p, out, c)|)
    {
      HopIsLaid(p, out, c, i);
    }
    PlanAt(p, out, |p.sources|, c, |p.processors|);
    FanOutIsLaid(p, out, c);
  }

  // ---------- What must answer ----------

  /** The component is registered, and each of the three calls for it succeeds. */
  predicate Answers(out: Outside, c: nat, position: nat, id: string) {
    && id in out.registry
    && forall stage :: stage in {Registration, Connect, Open} ==> Attempt(c, position, stage) !in out.broken
  }

  /**
   Everything that source c's chain needs answers: behind processors all sinks, else some sink that names the source.
   */
  predicate ChainAnswers(p: Pipeline, out: Outside, c: nat)
    requires c < |p.sources|
  {
    && Answers(out, c, 0, p.sources[c].id)
    && (forall i :: 0 <= i < |p.processors| ==> Answers(out, c, 1 + i, p.processors[i].id))
    && (forall k :: 0 <= k < |p.sinks| && (p.processors != [] || p.sources[c].id in p.sinks[k].inputs) ==>
          Answers(out, c, 1 + |p.processors| + k, p.sinks[k].id))
    && (p.processors == [] ==> exists k :: 0 <= k < |p.sinks| && p.sources[c].id in p.sinks[k].inputs)
  }

  /** The error names the edge, and the first of the three calls for this component that failed, with its cause. */
  predicate Blames(out: Outside, c: nat, position: nat, id: string, e: WireError, from: string, to: string,
      kind: Kind)
  {
    && e.Failed? && e.err.from == from && e.err.to == to && e.err.kind == kind && e.err.event == None
    && var call := (stage: Operation) => Attempt(c, position, stage);
       if call(Registration) in out.broken
       then e.err.operation == Registration && e.err.cause == out.broken[call(Registration)]
       else if id !in out.registry then e.err.operation == Registration && e.err.cause == Status(Unknown)
       else if call(Connect) in out.broken
       then e.err.operation == Connect && e.err.cause == out.broken[call(Connect)]
       else call(Open) in out.broken && e.err.operation == Open && e.err.cause == out.broken[call(Open)]
  }

  /** Processor i is the first whose stream cannot be opened. */
  predicate BlamesProcessor(p: Pipeline, out: Outside, c: nat, i: nat, e: WireError)
    requires c < |p.sources|
  {
    && i < |p.processors| && (forall j :: 0 <= j < i ==> CanOpen(out, c, 1 + j, p.processors[j].id))
    && Blames(out, c, 1 + i, p.processors[i].id, e, p.sources[c].id, p.processors[i].id, ProcessorWiring)
  }

  /** Sink k is the first one of the chain whose stream cannot be opened. */
  predicate BlamesSink(p: Pipeline, out: Outside, c: nat, k: nat, e: WireError)
    requires c < |p.sources|
  {
    var n := |p.processors|;
    && k < |p.sinks| && (n > 0 || p.sources[c].id in p.sinks[k].inputs)
    && (forall j :: 0 <= j < k ==> CanOpenSink(p, out, c, j))
    && Blames(out, c, 1 + n + k, p.sinks[k].id, e, Upstream(p, c, n), p.sinks[k].id,
              if n > 0 then ProcessorSink else SourceSink)
  }

  /** The error of a source that cannot be wired: the first thing that fails, in the order source, processors, sinks. */
  ghost predicate BlamesFirst(p: Pipeline, out: Outside, c: nat, e: WireError)
    requires c < |p.sources|
  {
    var n := |p.processors|;
    if !CanOpen(out, c, 0, p.sources[c].id) then
      Blames(out, c, 0, p.sources[c].id, e, p.sources[c].id, if n > 0 then p.processors[0].id else "sinks",
             SourceProcessor)
    else if !CanOpenProcessors(p, out, c) then exists i :: BlamesProcessor(p, out, c, i, e)
    else if !CanOpenSinks(p, out, c) then exists k :: BlamesSink(p, out, c, k, e)
    else e == NoSinkDeclares(p.sources[c].id)
  }

  lemma CanWireIff(p: Pipeline, out: Outside, c: nat)
    requires c < |p.sources|
    ensures CanWire(p, out, c) <==> ChainAnswers(p, out, c)
  {
    hide ChainSinks, Answers, CanOpen;
    forall position: nat, id ensures Answers(out, c, position, id) <==> CanOpen(out, c, position, id) {
      AnswersIff(out, c, position, id);
    }
    var at := SinksOfChain(p, c, |p.sinks|);
    if |at| > 0 {
      assert at[0] in at;
    }
    assert p.processors == [] ==>
      (|at| > 0 <==> exists k :: 0 <= k < |p.sinks| && p.sources[c].id in p.sinks[k].inputs);
    SinksOpenIff(p, out, c);
  }

  lemma SinksOpenIff(p: Pipeline, out: Outside, c: nat)
    requires c < |p.sources|
    ensures CanOpenSinks(p, out, c) <==>
      forall k :: 0 <= k < |p.sinks| && (p.processors != [] || p.sources[c].id in p.sinks[k].inputs) ==>
        CanOpen(out, c, 1 + |p.processors| + k, p.sinks[k].id)
  {
    hide CanOpen;
    forall k: nat | k < |p.sinks|
      ensures CanOpenSink(p, out, c, k) <==>
        ((p.processors != [] || p.sources[c].id in p.sinks[k].inputs) ==>
          CanOpen(out, c, 1 + |p.processors| + k, p.sinks[k].id))
    {
    }
  }

  lemma AnswersIff(out: Outside, c: nat, position: nat, id: string)
    ensures Answers(out, c, position, id) <==> CanOpen(out, c, position, id)
  {
  }

  lemma NoStreams(c: nat)
    ensures StreamsTo(c, []) == []
  {
  }

  lemma OneMoreStream(c: nat, components: seq<Component>, last: Component)
    ensures StreamsTo(c, components + [last]) == StreamsTo(c, components) + [Opened(c, last.id)]
  {
    assert (components + [last])[..|components|] == components;
  }

  // ---------- WireAll ----------

  class StreamOrchestrator {
    const pipeline: Pipeline
    var started: bool
    var streams: seq<Opened>
    var edges: seq<Edge>
    var canceled: bool

    constructor (pipeline: Pipeline)
      ensures this.pipeline == pipeline && !started && streams == [] && edges == [] && !canceled
    {
      this.pipeline := pipeline;
      started, streams, edges, canceled := false, [], [], false;
    }

    /** Looks a component up, connects and opens a stream; a failure cancels everything. */
    method OpenStream(out: Outside, c: nat, position: nat, id: string, from: string, to: string, kind: Kind)
      returns (r: Result<nat, WireError>)
      modifies this`streams, this`canceled
      ensures r.Ok? ==> r.value == |old(streams)| && streams == old(streams) + [Opened(c, id)]
                        && canceled == old(canceled)
      ensures r.Err? ==> streams == old(streams) && canceled && Blames(out, c, position, id, r.error, from, to, kind)
      ensures r.Ok? <==> CanOpen(out, c, position, id)
    {
      var stages := [Registration, Connect, Open];
      assert stages[0] == Registration && stages[1] == Connect && stages[2] == Open;
      for i := 0 to |stages|
        invariant streams == old(streams) && canceled == old(canceled)
        invariant i > 0 ==> id in out.registry
        invariant forall j :: 0 <= j < i ==> Attempt(c, position, stages[j]) !in out.broken
      {
        var call := Attempt(c, position, stages[i]);
        if call in out.broken || (i == 0 && id !in out.registry) {
          canceled := true;
          var cause := if call in out.broken then out.broken[call] else Status(Unknown);
          return Err(Failed(DeliveryError(from, to, kind, stages[i], None, cause)));
        }
      }
      r := Ok(|streams|);
      streams := streams + [Opened(c, id)];
    }

    /** Opens a stream to sink k if it is routed to source c; tells whether it did. */
    method OpenSink(out: Outside, c: nat, k: nat) returns (r: Result<bool, WireError>)
      requires c < |pipeline.sources| && k < |pipeline.sinks|
      modifies this`streams, this`canceled
      ensures r.Ok? ==> canceled == old(canceled) && r.value == Routed(pipeline, c, pipeline.sinks[k])
                        && streams == if r.value then old(streams) + [Opened(c, pipeline.sinks[k].id)] else old(streams)
      ensures r.Err? ==> canceled && streams == old(streams)
      ensures r.Err? && (forall j :: 0 <= j < k ==> CanOpenSink(pipeline, out, c, j)) ==>
        BlamesSink(pipeline, out, c, k, r.error)
      ensures r.Ok? <==> CanOpenSink(pipeline, out, c, k)
    {
      var source, sink, n := pipeline.sources[c], pipeline.sinks[k], |pipeline.processors|;
      if n == 0 && source.id !in sink.inputs {
        return Ok(false);
      }
      var last := if n > 0 then pipeline.processors[n - 1].id else source.id;
      var kind := if n > 0 then ProcessorSink else SourceSink;
      var opening := OpenStream(out, c, 1 + n + k, sink.id, last, sink.id, kind);
      r := if opening.Ok? then Ok(true) else Err(opening.error);
    }

    /** Opens one stream to every sink routed to source c. */
    method OpenSinks(out: Outside, c: nat) returns (r: Result<seq<Component>, WireError>)
      requires c < |pipeline.sources|
      modifies this`streams, this`canceled
      ensures r.Ok? ==> canceled == old(canceled) && r.value == ChainSinks(pipeline, c, |pipeline.sinks|)
                        && streams == old(streams) + StreamsTo(c, r.value)
      ensures r.Err? ==> canceled && old(streams) <= streams && exists k :: BlamesSink(pipeline, out, c, k, r.error)
      ensures r.Ok? <==> CanOpenSinks(pipeline, out, c)
    {
      hide Routed, CanOpen, StreamsTo;
      NoStreams(c);
      var sinks: seq<Component> := [];
      for k := 0 to |pipeline.sinks|
        invariant canceled == old(canceled)
        invariant sinks == ChainSinks(pipeline, c, k)
        invariant streams == old(streams) + StreamsTo(c, sinks)
        invariant forall j :: 0 <= j < k ==> CanOpenSink(pipeline, out, c, j)
      {
        var opening := OpenSink(out, c, k);
        if opening.Err? {
          return Err(opening.error);
        }
        if opening.value {
          OneMoreStream(c, sinks, pipeline.sinks[k]);
          sinks := sinks + [pipeline.sinks[k]];
        }
      }
      r := Ok(sinks);
    }

    /** Opens one stream to every processor, for source c alone. */
    method OpenProcessors(out: Outside, c: nat) returns (err: Option<WireError>)
      requires c < |pipeline.sources|
      modifies this`streams, this`canceled
      ensures err.None? ==> canceled == old(canceled) && streams == old(streams) + StreamsTo(c, pipeline.processors)
      ensures err.Some? ==>
        canceled && old(streams) <= streams && exists i :: BlamesProcessor(pipeline, out, c, i, err.value)
      ensures err.None? <==> CanOpenProcessors(pipeline, out, c)
    {
      hide CanOpen, StreamsTo;
      NoStreams(c);
      ghost var ps := pipeline.processors;
      for i := 0 to |pipeline.processors|
        invariant canceled == old(canceled)
        invariant streams == old(streams) + StreamsTo(c, ps[..i])
        invariant forall j :: 0 <= j < i ==> CanOpen(out, c, 1 + j, ps[j].id)
      {
        var id := pipeline.processors[i].id;
        var opening := OpenStream(out, c, 1 + i, id, pipeline.sources[c].id, id, ProcessorWiring);
        if opening.Err? {
          assert BlamesProcessor(pipeline, out, c, i, opening.error);
          return Some(opening.error);
        }
        OneMoreStream(c, ps[..i], ps[i]);
        assert ps[..i + 1] == ps[..i] + [ps[i]];
      }
      assert ps[..|ps|] == ps;
      err := None;
    }

    /** Opens the streams of one source, in the order source, processors, sinks. */
    method OpenChain(out: Outside, c: nat) returns (r: Result<seq<Component>, WireError>)
      requires c < |pipeline.sources|
      modifies this`streams, this`canceled
      ensures r.Ok? ==> canceled == old(canceled) && r.value == ChainSinks(pipeline, c, |pipeline.sinks|)
                        && streams == old(streams) + ChainStreams(pipeline, c)
      ensures r.Err? ==> canceled && old(streams) <= streams && BlamesFirst(pipeline, out, c, r.error)
      ensures r.Ok? <==> CanWire(pipeline, out, c)
    {
      hide ChainSinks, StreamsTo, CanOpenSinks, CanOpenProcessors, CanOpen;
      var source := pipeline.sources[c];
      var target := if |pipeline.processors| > 0 then pipeline.processors[0].id else "sinks";
      var opening := OpenStream(out, c, 0, source.id, source.id, target, SourceProcessor);
      if opening.Err? {
        return Err(opening.error);
      }
      var failed := OpenProcessors(out, c);
      if failed.Some? {
        return Err(failed.value);
      }
      r := OpenSinks(out, c);
      if r.Ok? && |pipeline.processors| == 0 && r.value == [] {
        canceled := true;
        return Err(NoSinkDeclares(source.id));
      }
    }

    /** Launches the edges of one source: source to first processor, processor to processor, last to sinks. */
    method LaunchChain(out: Outside, c: nat, base: nat, wired: seq<Component>)
      requires c < |pipeline.sources| && wired == ChainSinks(pipeline, c, |pipeline.sinks|)
      modifies this`edges
      ensures edges == old(edges) + ChainEdges(pipeline, out, c, base, |pipeline.processors| + 1)
    {
      hide ChainSinks, SinkTargets;
      var source, n := pipeline.sources[c], |pipeline.processors|;
      var sinks := SinkTargets(out, wired, base + 1 + n);
      if n == 0 {
        edges := edges + [Edge(FanOutSource(source.bounded), c, source.id, base, sinks)];
        return;
      }
      edges := edges + [Edge(ForwardSource(source.bounded), c, source.id, base,
        [Processor(pipeline.processors[0].id, base + 1)])];
      for i := 0 to n - 1
        invariant edges == old(edges) + ChainEdges(pipeline, out, c, base, i + 1)
      {
        edges := edges + [Edge(Forward, c, pipeline.processors[i].id, base + i + 1,
                               [Processor(pipeline.processors[i + 1].id, base + i + 2)])];
      }
      edges := edges + [Edge(FanOutProcessor, c, pipeline.processors[n - 1].id, base + n, sinks)];
    }

    /** The first n sources are wired, and nothing else has been opened. */
    ghost predicate Wired(out: Outside, n: nat)
      reads this
      requires n <= |pipeline.sources|
    {
      edges == EdgesUpTo(pipeline, out, n) && streams == StreamsUpTo(pipeline, n)
    }

    method WireSource(out: Outside, c: nat) returns (err: Option<WireError>)
      requires c < |pipeline.sources| && Wired(out, c)
      modifies this`streams, this`edges, this`canceled
      ensures err.None? ==> Wired(out, c + 1) && canceled == old(canceled)
      ensures err.Some? ==> canceled && edges == old(edges) && old(streams) <= streams
      ensures err.Some? ==> BlamesFirst(pipeline, out, c, err.value)
      ensures err.None? <==> CanWire(pipeline, out, c)
    {
      var base := |streams|;
      var opening := OpenChain(out, c);
      if opening.Err? {
        return Some(opening.error);
      }
      LaunchChain(out, c, base, opening.value);
      err := None;
    }

    /** What wiring leaves behind: the edges of the sources before the first that cannot be wired. */
    ghost predicate WiredBefore(out: Outside, wired: nat)
      reads this
    {
      && wired <= |pipeline.sources| && edges == EdgesUpTo(pipeline, out, wired)
      && (forall c :: 0 <= c < wired ==> CanWire(pipeline, out, c))
      && (wired < |pipeline.sources| ==> !CanWire(pipeline, out, wired))
    }

    /** Wires every source in turn, up to the first that cannot be wired; failing there cancels. */
    method WireSources(out: Outside) returns (err: Option<WireError>, wired: nat)
      requires !canceled && Wired(out, 0)
      modifies this`streams, this`edges, this`canceled
      ensures WiredBefore(out, wired)
      ensures err.None? <==> wired == |pipeline.sources|
      ensures err.Some? ==> wired < |pipeline.sources| && BlamesFirst(pipeline, out, wired, err.value)
      ensures canceled <==> err.Some?
      ensures err.None? ==> Wired(out, wired)
    {
      hide EdgesUpTo, StreamsUpTo, CanWire;
      wired := 0;
      while wired < |pipeline.sources|
        invariant wired <= |pipeline.sources| && !canceled && Wired(out, wired)
        invariant forall c :: 0 <= c < wired ==> CanWire(pipeline, out, c)
      {
        err := WireSource(out, wired);
        if err.Some? {
          return;
        }
        wired := wired + 1;
      }
      err := None;
    }

    /** A failure leaves the edges of the `wired` sources before it running, to be reaped by Wait. */
    method WireAll(out: Outside) returns (err: Option<WireError>, wired: nat)
      requires !started ==> streams == [] && edges == [] && !canceled
      modifies this
      ensures started
      ensures old(started) ==>
        err == Some(AlreadyWired) && edges == old(edges) && streams == old(streams) && canceled == old(canceled)
      ensures !old(started) && (pipeline.sources == [] || pipeline.sinks == []) ==>
        err == Some(NeedsSourcesAndSinks) && edges == [] && streams == [] && !canceled
      ensures !old(started) && pipeline.sources != [] && pipeline.sinks != [] ==>
        && WiredBefore(out, wired) && (canceled <==> err.Some?)
        && (err.None? <==> wired == |pipeline.sources|) && (err.None? ==> Wired(out, wired))
        && (err.Some? ==> wired < |pipeline.sources| && BlamesFirst(pipeline, out, wired, err.value))
      ensures !old(started) ==>
        (err.None? <==>
          && pipeline.sources != [] && pipeline.sinks != []
          && forall c :: 0 <= c < |pipeline.sources| ==> ChainAnswers(pipeline, out, c))
      ensures err.None? ==>
        && |edges| == FirstEdge(pipeline, |pipeline.sources|)
        && forall c :: 0 <= c < |pipeline.sources| ==> ChainLaid(pipeline, out, edges, streams, c)
    {
      hide CanWire, ChainAnswers, ChainLaid, FirstEdge;
      if started {
        return Some(AlreadyWired), 0;
      }
      started := true;
      if |pipeline.sources| == 0 || |pipeline.sinks| == 0 {
        return Some(NeedsSourcesAndSinks), 0;
      }
      err, wired := WireSources(out);
      forall c | 0 <= c < |pipeline.sources| ensures CanWire(pipeline, out, c) <==> ChainAnswers(pipeline, out, c) {
        CanWireIff(pipeline, out, c);
      }
      if err.None? {
        PlanLength(pipeline, out, |pipeline.sources|);
        forall c | 0 <= c < |pipeline.sources| ensures ChainLaid(pipeline, out, edges, streams, c) {
          WiringLaysChains(pipeline, out, c);
        }
      }
    }
  }
}
