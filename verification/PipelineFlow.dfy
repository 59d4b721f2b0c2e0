/**
 The pipeline's DAG once it is built and started: what every goroutine has sent, on whose channel, said with the names,
 inputs and output types of the pipeline itself.
 */
module PipelineFlow {
  import opened Wrappers
  import opened DagBuild
  import opened PipelineGraph
  import opened GraphBuilder
  import E = DagEngine
  import S = DagSafety
  import F = DagFanOut

  /** The state belongs to the pipeline's DAG, built and started with one loop per input channel. */
  ghost predicate Runs(b: DagPipeline, loops: seq<LoopId>, s: E.State)
    reads b, b.dag
  {
    && b.Connected() && b.Registered() && b.made == Links(b.pipeline) && DistinctChannels(b.reg)
    && b.dag.Typed() && LoopsOf(loops, b.dag.nodes.Keys, b.dag.nodes)
    && s.net == b.dag.Assembled(s.net.capacity, loops) && S.Inv(s)
  }

  /** Between two messages a goroutine has nothing in hand. */
  predicate BetweenMessages(w: E.Worker) {
    w.pc.Selecting? || w.pc.Processing?
  }

  // ---------- The goroutines ----------

  lemma LoopOfRun(b: DagPipeline, loops: seq<LoopId>, s: E.State, i: nat)
    requires Runs(b, loops, s) && i < |loops|
    ensures var w, n := |b.dag.adapters| + i, b.dag.nodes;
            && IsLoop(loops[i], n) && w < |s.workers| && |s.workers| == |s.net.jobs|
            && s.net.jobs[w] == E.Loop(n[loops[i].processor].inputChannels[loops[i].eventType],
                                       n[loops[i].processor].outputChannels)
  {
    hide S.WorkerOk, S.ChannelOk, S.StopOrder, S.HistoriesAgree, DagPipeline.Connected, DagPipeline.Registered;
  }

  lemma ChannelOfRun(b: DagPipeline, loops: seq<LoopId>, s: E.State, q: string, u: string)
    requires Runs(b, loops, s) && q in b.dag.nodes && u in b.dag.nodes[q].inputChannels
    ensures b.dag.nodes[q].inputChannels[u] < |s.channels|
  {
    hide S.WorkerOk, S.ChannelOk, S.StopOrder, S.HistoriesAgree, DagPipeline.Connected, DagPipeline.Registered;
    assert NodeTyped(b.dag.kinds, b.dag.nodes[q]);
  }

  lemma SinkOfRun(b: DagPipeline, loops: seq<LoopId>, s: E.State, k: string)
    requires Runs(b, loops, s) && k in b.dag.sinkChannels
    ensures b.dag.sinkChannels[k] < |s.channels|
  {
    hide S.WorkerOk, S.ChannelOk, S.StopOrder, S.HistoriesAgree, DagPipeline.Connected, DagPipeline.Registered;
  }

  lemma {:induction false} CopiesCount(outputs: map<string, seq<nat>>, ms: seq<E.Message>, c: nat, m: E.Message)
    ensures multiset(F.Copies(outputs, ms, c))[m] == multiset(ms)[m] * F.TimesListed(outputs, m.eventType, c)
  {
    hide F.TimesListed, F.Copies;
    if ms == [] {
      F.NoCopies(outputs, c);
    } else {
      var init, last := ms[..|ms| - 1], ms[|ms| - 1];
      CopiesCount(outputs, init, c, m);
      CopiesSnoc(outputs, init, last, c);
      CopiesOfOne(last, F.TimesListed(outputs, last.eventType, c), m);
      assert ms == init + [last];
      if last == m {
        F.OneMore(multiset(init)[m], F.TimesListed(outputs, m.eventType, c));
        assert multiset(ms)[m] == multiset(init)[m] + 1;
      } else {
        assert multiset(ms)[m] == multiset(init)[m];
      }
    }
  }

  lemma CopiesSnoc(outputs: map<string, seq<nat>>, init: seq<E.Message>, last: E.Message, c: nat)
    ensures multiset(F.Copies(outputs, init + [last], c)) ==
            multiset(F.Copies(outputs, init, c)) + multiset(seq(F.TimesListed(outputs, last.eventType, c), _ => last))
  {
    hide F.TimesListed;
    assert (init + [last])[..|init|] == init;
  }

  lemma {:induction false} CopiesOfOne(x: E.Message, n: nat, m: E.Message)
    ensures multiset(seq(n, _ => x))[m] == if x == m then n else 0
  {
    if n > 0 {
      CopiesOfOne(x, n - 1, m);
      assert seq(n, _ => x) == seq(n - 1, _ => x) + [x];
    }
  }

  lemma TimesListedIs(n: Node, t: string, c: nat)
    ensures F.TimesListed(n.outputChannels, t, c) == Times(c, Outputs(n, t))
  {
    TimesIsMultiplicity(c, Outputs(n, t));
  }

  // ---------- What a processor's channel and a sink's channel have ----------

  /**
   In every reachable state, a loop of processor f that is between two messages has sent to processor q's channel for
   type u each output of that type as often as Process returned it, times as often as f is among q's inputs, times as
   often as u is among f's output types; nothing of another type, and nothing at all if f is also the name of a source.
   */
  lemma ProcessorFlow(b: DagPipeline, loops: seq<LoopId>, s: E.State, i: nat, k: nat, u: string, m: E.Message)
    requires Runs(b, loops, s) && i < |loops| && k < |b.pipeline.processors|
    requires BetweenMessages(s.workers[|b.dag.adapters| + i])
    requires b.pipeline.processors[k].id in b.dag.nodes
    requires u in b.dag.nodes[b.pipeline.processors[k].id].inputChannels
    ensures var w, f, q := |b.dag.adapters| + i, loops[i].processor, b.pipeline.processors[k];
            var c := b.dag.nodes[q.id].inputChannels[u];
            && c < |s.channels|
            && multiset(S.Of(s.channels[c].sent, Some(w)))[m] ==
               multiset(F.Returned(s.workers[w].results))[m] *
               (if m.eventType != u || Has(b.pipeline.sources, f) then 0
                else Times(f, q.inputs) * Times(u, TypesOf(b.pipeline.processors, f)))
  {
    hide S.Inv, S.Of, F.Returned, F.Copies, F.TimesListed, Outputs, Times, TypesOf, Has, DistinctChannels;
    hide DagPipeline.Connected, DagPipeline.Registered, Links;
    var w, f, q := |b.dag.adapters| + i, loops[i].processor, b.pipeline.processors[k];
    var c := b.dag.nodes[q.id].inputChannels[u];
    LoopOfRun(b, loops, s, i);
    ChannelOfRun(b, loops, s, q.id, u);
    F.ChannelHasEveryOutput(s, w, c);
    CopiesCount(s.net.jobs[w].outputs, F.Returned(s.workers[w].results), c, m);
    TimesListedIs(b.dag.nodes[f], m.eventType, c);
    b.ProcessorOutputs(f, m.eventType, k, u);
  }

  /** Likewise to a sink's channel, when the names of the sinks are distinct; there the name of a source matters not. */
  lemma SinkFlow(b: DagPipeline, loops: seq<LoopId>, s: E.State, i: nat, k: nat, m: E.Message)
    requires Runs(b, loops, s) && i < |loops| && k < |b.pipeline.sinks| && DistinctIds(b.pipeline.sinks)
    requires BetweenMessages(s.workers[|b.dag.adapters| + i])
    ensures var w, f, sink := |b.dag.adapters| + i, loops[i].processor, b.pipeline.sinks[k];
            && sink.id in b.dag.sinkChannels && b.dag.sinkChannels[sink.id] < |s.channels|
            && multiset(S.Of(s.channels[b.dag.sinkChannels[sink.id]].sent, Some(w)))[m] ==
               multiset(F.Returned(s.workers[w].results))[m] *
               (Times(f, sink.inputs) * Times(m.eventType, TypesOf(b.pipeline.processors, f)))
  {
    hide S.Inv, S.Of, F.Returned, F.Copies, F.TimesListed, Outputs, Times, TypesOf, DistinctChannels;
    hide DagPipeline.Connected, DagPipeline.Registered, Links;
    var w, f, sink := |b.dag.adapters| + i, loops[i].processor, b.pipeline.sinks[k];
    LoopOfRun(b, loops, s, i);
    b.SinkOutputs(f, m.eventType, k);
    var c := b.dag.sinkChannels[sink.id];
    SinkOfRun(b, loops, s, sink.id);
    F.ChannelHasEveryOutput(s, w, c);
    CopiesCount(s.net.jobs[w].outputs, F.Returned(s.workers[w].results), c, m);
    TimesListedIs(b.dag.nodes[f], m.eventType, c);
  }

  // ---------- What a source's adapter has sent ----------

  /**
   In every reachable state, an adapter that is between two messages has sent each event that it took from its source,
   in order and under its event type, to its processor's channel for that type; and nothing to any other channel.
   */
  lemma SourceFlow(b: DagPipeline, loops: seq<LoopId>, s: E.State, i: nat, c: nat)
    requires Runs(b, loops, s) && i < |b.dag.adapters| && c < |s.channels|
    requires i < |s.workers| && BetweenMessages(s.workers[i])
    ensures var a, taken := b.dag.adapters[i], s.workers[i].taken;
            && a.source in b.dag.sources && a.processor in b.dag.nodes
            && a.eventType in b.dag.nodes[a.processor].inputChannels
            && s.net.jobs[i].input == b.dag.sources[a.source]
            && S.Of(s.channels[c].sent, Some(i)) ==
               if c == b.dag.nodes[a.processor].inputChannels[a.eventType]
               then seq(|taken|, j requires 0 <= j < |taken| => E.Message(a.eventType, taken[j].payload))
               else []
  {
    hide S.WorkerOk, S.ChannelOk, S.StopOrder, S.HistoriesAgree, S.Of, S.On, E.Owed, DistinctChannels, Links;
    hide DagPipeline.Connected, DagPipeline.Registered;
    var a, taken := b.dag.adapters[i], s.workers[i].taken;
    b.AdapterReachesProcessor(i);
    var target := b.dag.nodes[a.processor].inputChannels[a.eventType];
    assert s.net.jobs[i] == E.Adapter(b.dag.sources[a.source], a.eventType, Some(target));
    S.EveryOutputFannedOut(s, i, c);
    F.AdapterOwes(s, i);
    OnOne(target, seq(|taken|, j requires 0 <= j < |taken| => E.Message(a.eventType, taken[j].payload)),
          E.Owed(s.net.jobs[i], s.workers[i].results), c);
  }

  lemma {:induction false} OnOne(target: nat, ms: seq<E.Message>, ds: seq<E.Delivery>, c: nat)
    requires |ds| == |ms| && forall j :: 0 <= j < |ms| ==> ds[j] == E.Delivery(target, ms[j])
    ensures S.On(ds, c) == if c == target then ms else []
  {
    if ms != [] {
      var n := |ms| - 1;
      OnOne(target, ms[..n], ds[..n], c);
      assert ms == ms[..n] + [ms[n]] && ds[n] == E.Delivery(target, ms[n]);
      assert S.On(ds, c) == S.On(ds[..n], c) + if target == c then [ms[n]] else [];
    }
  }
}
