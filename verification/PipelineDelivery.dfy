/** The delivery protocol over the edges that WireAll launches: what a whole pipeline run guarantees. */
module PipelineDelivery {
  import opened Wrappers
  import opened Transport
  import opened DeliveryWorker
  import opened DeliveryProtocol
  import W = Wiring

  /** The edges of a pipeline, over the streams opened for it. */
  ghost predicate WiredFor(s: State, p: W.Pipeline, out: W.Outside) {
    s.plan == W.EdgesUpTo(p, out, |p.sources|) && |s.feeds| == |W.StreamsUpTo(p, |p.sources|)|
  }

  /** Edge i has sent event e to its target k. */
  predicate HasSent(s: State, i: nat, k: nat, e: Event) {
    && i < |s.workers| && i < |s.plan| && k < |s.plan[i].targets| && k < |s.workers[i].sent|
    && e in s.workers[i].sent[k]
  }

  lemma SentWasEmitted(s: State, i: nat, k: nat, e: Event)
    requires GlobalInv(s) && HasSent(s, i, k, e)
    ensures e in s.feeds[s.plan[i].from].emitted && Takes(s.plan[i].targets[k], e)
  {
    assert WorkerOk(s, i);
    var w, t := s.workers[i], s.plan[i].targets[k];
    InvMeansAtMostOneInHand(s.plan[i], w);
    DueExactlyTheAccepted(t, w.received, e);
    DueExactlyTheAccepted(t, [], e);
    if w.received != [] {
      DueExactlyTheAccepted(t, w.received[..|w.received| - 1], e);
    }
  }

  /**
   Whatever the interleaving and whatever the peers do, an event sent on a stream was emitted on a stream opened
   for the same source, by the component right upstream, and is of a type its receiver accepts.
   */
  lemma NoEventChangesChain(p: W.Pipeline, out: W.Outside, s0: State, steps: seq<Step>, i: nat, k: nat, e: Event)
    requires Initial(s0) && WiredFor(s0, p, out) && Possible(s0, steps)
    requires HasSent(Run(s0, steps), i, k, e)
    ensures i < |s0.plan| && k < |s0.plan[i].targets|
    ensures s0.plan[i].from < |Run(s0, steps).feeds| && e in Run(s0, steps).feeds[s0.plan[i].from].emitted
    ensures Takes(s0.plan[i].targets[k], e)
    ensures var streams := W.StreamsUpTo(p, |p.sources|);
            && s0.plan[i].from < |streams| && s0.plan[i].targets[k].stream < |streams|
            && streams[s0.plan[i].from].chain == streams[s0.plan[i].targets[k].stream].chain
  {
    InitialInv(s0);
    EveryInterleaving(s0, steps);
    SentWasEmitted(Run(s0, steps), i, k, e);
    W.WiringKeepsChainsApart(p, out);
    assert W.OwnEdge(s0.plan[i], W.StreamsUpTo(p, |p.sources|));
  }

  /** Edge a sent one processor all its upstream emitted, and the next edge received all that this processor emitted. */
  predicate PassedOn(s: State, a: nat, processor: string) {
    && s.WellFormed() && a + 1 < |s.workers| && |s.workers[a].sent| == 1
    && s.workers[a].sent[0] == s.feeds[s.plan[a].from].emitted
    && s.plan[a].targets == [Processor(processor, s.plan[a + 1].from)]
    && s.workers[a + 1].received == s.feeds[s.plan[a + 1].from].emitted
  }

  lemma DeliveredPassesOn(s: State, a: nat, processor: string)
    requires Delivered(s) && a + 1 < |s.plan|
    requires s.plan[a].targets == [Processor(processor, s.plan[a + 1].from)]
    ensures PassedOn(s, a, processor)
  {
    DeliveredToTarget(s, a, 0);
    assert Clean(s.plan[a + 1], s.workers[a + 1]);
  }

  /**
   After complete delivery, processor i of source c's chain was sent exactly what its upstream emitted, in order;
   its stream is the one the next edge of the same chain received from, to its end.
   */
  lemma ProcessorGotEverything(p: W.Pipeline, out: W.Outside, s: State, c: nat, i: nat)
    requires WiredFor(s, p, out) && Delivered(s) && c < |p.sources| && i < |p.processors|
    ensures PassedOn(s, W.FirstEdge(p, c) + i, p.processors[i].id)
  {
    hide W.EdgesUpTo, W.StreamsUpTo, W.SinkTargets, W.FirstEdge, Due, Delivered, PassedOn;
    var a := W.FirstEdge(p, c) + i;
    W.PlanLength(p, out, c);
    W.PlanAt(p, out, |p.sources|, c, i);
    W.PlanAt(p, out, |p.sources|, c, i + 1);
    DeliveredPassesOn(s, a, p.processors[i].id);
  }

  /** Target k of edge a stands for this sink, was sent exactly what it is due, and acknowledged exactly that. */
  predicate SinkServed(s: State, out: W.Outside, a: nat, k: nat, id: string) {
    && s.WellFormed() && a < |s.workers| && k < |s.plan[a].targets| && k < |s.workers[a].sent| == |s.workers[a].closes|
    && id in out.registry && s.plan[a].targets[k].Sink?
    && s.plan[a].targets[k].id == id && s.plan[a].targets[k].types == out.registry[id]
    && var due := Due(s.plan[a].targets[k], s.feeds[s.plan[a].from].emitted);
       s.workers[a].sent[k] == due && s.workers[a].closes[k] == Some(Response(|due|, 0, 0))
  }

  ghost predicate SomeTargetServed(s: State, out: W.Outside, a: nat, id: string) {
    exists k :: SinkServed(s, out, a, k, id)
  }

  /** The last edge of source c's chain is where wiring laid it. */
  lemma FanOutIsPlanned(p: W.Pipeline, out: W.Outside, s: State, c: nat)
    requires WiredFor(s, p, out) && c < |p.sources| && W.CanWire(p, out, c)
    ensures var a := W.FirstEdge(p, c) + |p.processors|;
            a < |s.plan| && W.FanOutLaid(p, out, W.StreamsUpTo(p, |p.sources|), c, s.plan[a])
  {
    hide W.EdgesUpTo, W.StreamsUpTo, W.FanOutLaid, W.HopLaid, W.CanWire, W.FirstEdge;
    W.WiringLaysChains(p, out, c);
  }

  /**
   After complete delivery, each sink of the pipeline - behind processors every one, else each that names source c among
   its inputs - holds exactly the events of source c's chain that it accepts, and acknowledged their number.
   */
  lemma SinkGotEverything(p: W.Pipeline, out: W.Outside, s: State, c: nat, k: nat)
    requires WiredFor(s, p, out) && Delivered(s) && c < |p.sources| && W.CanWire(p, out, c) && k < |p.sinks|
    requires p.processors != [] || p.sources[c].id in p.sinks[k].inputs
    ensures SomeTargetServed(s, out, W.FirstEdge(p, c) + |p.processors|, p.sinks[k].id)
  {
    hide W.StreamsUpTo, W.CanWire, W.FirstEdge, Delivered, Due;
    var a := W.FirstEdge(p, c) + |p.processors|;
    FanOutIsPlanned(p, out, s, c);
    var j := k;
    if p.processors == [] {
      var at: seq<nat> :| W.StandFor(p, out, W.StreamsUpTo(p, |p.sources|), c, s.plan[a].targets, at)
                          && forall i :: 0 <= i < |p.sinks| ==> (i in at <==> p.sources[c].id in p.sinks[i].inputs);
      j :| 0 <= j < |at| && at[j] == k;
    }
    assert W.StandsFor(out, W.StreamsUpTo(p, |p.sources|), c, s.plan[a].targets[j], p.sinks[k]);
    DeliveredIsComplete(s, a);
    DeliveredToTarget(s, a, j);
    assert SinkServed(s, out, a, j, p.sinks[k].id);
  }

  lemma DeliveredIsComplete(s: State, a: nat)
    requires Delivered(s) && a < |s.plan|
    ensures s.WellFormed() && a < |s.workers|
  {
  }
}
