/** The imperative graph builder of the DAG pipeline, proved against the links that the pipeline implies. */
module GraphBuilder {
  import opened Wrappers
  import opened DagBuild
  import opened PipelineGraph
  import E = DagEngine

  /** The components by name, as the builder indexes them; with distinct names nothing is lost. */
  ghost predicate Indexes(m: map<string, Component>, cs: seq<Component>) {
    && (forall id :: id in m <==> Has(cs, id))
    && (DistinctIds(cs) ==> forall i :: 0 <= i < |cs| ==> m[cs[i].id] == cs[i])
  }

  method Index(cs: seq<Component>) returns (m: map<string, Component>)
    ensures Indexes(m, cs)
  {
    m := map[];
    for i := 0 to |cs|
      invariant forall id :: id in m <==> Has(cs[..i], id)
      invariant DistinctIds(cs) ==> forall j :: 0 <= j < i ==> m[cs[j].id] == cs[j]
    {
      m := m[cs[i].id := cs[i]];
      forall id ensures id in m <==> Has(cs[..i + 1], id) {
        HasSnoc(cs, i, id);
      }
    }
    assert cs[..|cs|] == cs;
  }

  lemma HasSnoc(cs: seq<Component>, i: nat, id: string)
    requires i < |cs|
    ensures Has(cs[..i + 1], id) <==> Has(cs[..i], id) || cs[i].id == id
  {
    var shorter, longer := cs[..i], cs[..i + 1];
    assert longer[i] == cs[i] && forall j :: 0 <= j < i ==> longer[j] == shorter[j];
  }

  /** determineInputEventTypes. */
  method DetermineInputTypes(p: Pipeline, inputs: seq<string>) returns (types: seq<string>)
    ensures types == InputTypesUpTo(p, inputs)
  {
    types := [];
    for i := 0 to |inputs|
      invariant types == InputTypesUpTo(p, inputs[..i])
    {
      var fromSources := TypesNamed(p.sources, inputs[i]);
      var fromProcessors := TypesNamed(p.processors, inputs[i]);
      types := types + fromSources + fromProcessors;
      assert inputs[..i + 1][..i] == inputs[..i];
    }
    assert inputs[..|inputs|] == inputs;
  }

  method TypesNamed(cs: seq<Component>, id: string) returns (types: seq<string>)
    ensures types == TypesOf(cs, id)
  {
    types := [];
    for i := 0 to |cs|
      invariant types == TypesOf(cs[..i], id)
    {
      assert cs[..i + 1][..i] == cs[..i];
      if cs[i].id == id {
        types := types + cs[i].outputTypes;
      }
    }
    assert cs[..|cs|] == cs;
  }

  class DagPipeline {
    const pipeline: Pipeline
    const dag: Dag
    ghost var made: seq<Link>       // the links made so far
    ghost var reg: Registry         // the channels as registration left them

    constructor (pipeline: Pipeline)
      ensures this.pipeline == pipeline && fresh(dag) && dag.Typed()
      ensures dag.nodes == map[] && dag.sources == map[] && dag.sinkChannels == map[] && dag.adapters == []
              && dag.kinds == []
    {
      this.pipeline := pipeline;
      dag := new Dag();
      made, reg := [], Registry(map[], map[]);
    }

    // ---------- Registration ----------

    method RegisterSources() returns (err: Option<BuildError>)
      requires dag.sources == map[]
      modifies dag`sources, dag`kinds
      ensures err.None? <==> DistinctIds(pipeline.sources)
      ensures err.Some? ==> err.value.DuplicateSource?
      ensures err.None? ==> forall id :: id in dag.sources <==> Has(pipeline.sources, id)
      ensures old(dag.Typed()) ==> dag.Typed()
    {
      var cs := pipeline.sources;
      for i := 0 to |cs|
        invariant old(dag.Typed()) ==> dag.Typed()
        invariant forall id :: id in dag.sources <==> Has(cs[..i], id)
        invariant DistinctIds(cs[..i])
      {
        err := dag.AddSource(cs[i].id);
        if err.Some? {
          RepeatedId(cs, i);
          return;
        }
        NewId(cs, i);
        forall id ensures id in dag.sources <==> Has(cs[..i + 1], id) {
          HasSnoc(cs, i, id);
        }
      }
      assert cs[..|cs|] == cs;
      err := None;
    }

    /** What a registered processor looks like: a channel for each type it is sent, and no outputs. */
    ghost predicate NodeFor(n: Node, q: Component) {
      && n.inputTypes == InputTypesUpTo(pipeline, q.inputs)
      && n.outputChannels == map[]
      && forall t :: t in n.inputChannels <==> t in n.inputTypes
    }

    /** Nodes registered so far: the right types, and channels of their own below `limit`. */
    ghost predicate NodesFor(nodes: map<string, Node>, cs: seq<Component>, limit: nat) {
      && (forall id :: id in nodes <==> Has(cs, id))
      && (forall i :: 0 <= i < |cs| ==> cs[i].id in nodes && NodeFor(nodes[cs[i].id], cs[i]))
      && (forall q, t :: q in nodes && t in nodes[q].inputChannels ==> nodes[q].inputChannels[t] < limit)
      && OwnInputs(nodes)
    }

    /** No two inputs share a channel. */
    ghost predicate OwnInputs(nodes: map<string, Node>) {
      forall q, r, t, u ::
        (q in nodes && r in nodes && t in nodes[q].inputChannels && u in nodes[r].inputChannels
         && nodes[q].inputChannels[t] == nodes[r].inputChannels[u]) ==> (q == r && t == u)
    }

    lemma NextNode(nodes: map<string, Node>, cs: seq<Component>, i: nat, limit: nat, types: seq<string>)
      requires i < |cs| && NodesFor(nodes, cs[..i], limit) && cs[i].id !in nodes
      requires types == InputTypesUpTo(pipeline, cs[i].inputs)
      ensures var n := Node(types, InputChannelsFor(types, limit), map[]);
              NodesFor(nodes[cs[i].id := n], cs[..i + 1], limit + |types|)
    {
      hide InputChannelsFor, InputTypesUpTo, OwnInputs;
      var n := Node(types, InputChannelsFor(types, limit), map[]);
      var nodes' := nodes[cs[i].id := n];
      InputChannelsCover(types, limit);
      AddedInputsAreOwn(nodes, cs[i].id, n, limit);
      forall id ensures id in nodes' <==> Has(cs[..i + 1], id) {
        HasSnoc(cs, i, id);
      }
      forall j | 0 <= j < i + 1 ensures cs[j].id in nodes' && NodeFor(nodes'[cs[j].id], cs[j]) {
        if j < i {
          assert cs[..i][j] == cs[j];
        }
      }
    }

    lemma AddedInputsAreOwn(nodes: map<string, Node>, id: string, n: Node, limit: nat)
      requires OwnInputs(nodes) && id !in nodes
      requires forall q, t :: q in nodes && t in nodes[q].inputChannels ==> nodes[q].inputChannels[t] < limit
      requires forall t :: t in n.inputChannels ==> limit <= n.inputChannels[t]
      requires forall t, u :: t in n.inputChannels && u in n.inputChannels && t != u ==>
        n.inputChannels[t] != n.inputChannels[u]
      ensures OwnInputs(nodes[id := n])
    {
    }

    method RegisterProcessors() returns (err: Option<BuildError>)
      requires dag.nodes == map[]
      modifies dag`nodes, dag`kinds
      ensures err.None? <==> DistinctIds(pipeline.processors)
      ensures err.Some? ==> err.value.DuplicateProcessor?
      ensures err.None? ==> NodesFor(dag.nodes, pipeline.processors, |dag.kinds|)
      ensures old(dag.Typed()) ==> dag.Typed()
    {
      hide NodesFor, InputTypesUpTo, InputChannelsFor;
      var cs := pipeline.processors;
      NoNodes(cs);
      for i := 0 to |cs|
        invariant old(dag.Typed()) ==> dag.Typed()
        invariant NodesFor(dag.nodes, cs[..i], |dag.kinds|)
        invariant DistinctIds(cs[..i])
      {
        var types := DetermineInputTypes(pipeline, cs[i].inputs);
        NodeNames(dag.nodes, cs[..i], |dag.kinds|);
        ghost var before, limit := dag.nodes, |dag.kinds|;
        err := dag.AddProcessor(cs[i].id, types);
        if err.Some? {
          RepeatedId(cs, i);
          return;
        }
        NextNode(before, cs, i, limit, types);
        NewId(cs, i);
      }
      assert cs[..|cs|] == cs;
      err := None;
    }

    lemma NoNodes(cs: seq<Component>)
      ensures NodesFor(map[], cs[..0], |dag.kinds|)
    {
    }

    lemma NodeNames(nodes: map<string, Node>, cs: seq<Component>, limit: nat)
      requires NodesFor(nodes, cs, limit)
      ensures forall id :: id in nodes <==> Has(cs, id)
    {
    }

    /** Every sink has a channel at or above `floor`; with distinct names no two share one. */
    ghost predicate SinksFor(sinks: map<string, nat>, cs: seq<Component>, floor: nat, limit: nat) {
      && (forall id :: id in sinks <==> Has(cs, id))
      && (forall k :: k in sinks ==> floor <= sinks[k] < limit)
      && forall k, l :: k in sinks && l in sinks && sinks[k] == sinks[l] ==> k == l
    }

    method RegisterSinks()
      requires dag.sinkChannels == map[]
      modifies dag`sinkChannels, dag`kinds
      ensures SinksFor(dag.sinkChannels, pipeline.sinks, |old(dag.kinds)|, |dag.kinds|)
      ensures |old(dag.kinds)| <= |dag.kinds|
      ensures old(dag.Typed()) ==> dag.Typed()
    {
      var cs := pipeline.sinks;
      for i := 0 to |cs|
        invariant old(dag.Typed()) ==> dag.Typed()
        invariant SinksFor(dag.sinkChannels, cs[..i], |old(dag.kinds)|, |dag.kinds|)
        invariant |old(dag.kinds)| <= |dag.kinds|
      {
        var channel := dag.AddSinkChannel(cs[i].id);
        forall id ensures id in dag.sinkChannels <==> Has(cs[..i + 1], id) {
          HasSnoc(cs, i, id);
        }
      }
      assert cs[..|cs|] == cs;
    }

    static lemma RepeatedId(cs: seq<Component>, i: nat)
      requires i < |cs| && Has(cs[..i], cs[i].id)
      ensures !DistinctIds(cs)
    {
      var j :| 0 <= j < i && cs[..i][j].id == cs[i].id;
      assert cs[j].id == cs[i].id;
    }

    static lemma NewId(cs: seq<Component>, i: nat)
      requires i < |cs| && DistinctIds(cs[..i]) && !Has(cs[..i], cs[i].id)
      ensures DistinctIds(cs[..i + 1])
    {
      forall j, k | 0 <= j < k < i + 1 ensures cs[j].id != cs[k].id {
        if k == i {
          assert cs[..i][j].id == cs[j].id;
        } else {
          assert cs[..i][j].id == cs[j].id && cs[..i][k].id == cs[k].id;
        }
      }
    }

    // ---------- Connection ----------

    /** The nodes are the registered ones, and their outputs are exactly what the links made so far imply. */
    ghost predicate Connected()
      reads this, dag
    {
      && dag.sinkChannels == reg.sinks && dag.adapters == AdaptersOf(made)
      && (forall i :: 0 <= i < |made| ==> Resolves(reg, made[i]))
      && NodesAgree(reg, made, dag.nodes)
    }

    static ghost predicate NodesAgree(reg: Registry, links: seq<Link>, nodes: map<string, Node>) {
      nodes.Keys == reg.nodes.Keys && forall f :: f in nodes ==> NodeAgrees(reg, links, nodes[f], f)
    }

    static ghost predicate NodeAgrees(reg: Registry, links: seq<Link>, n: Node, f: string) {
      && f in reg.nodes && n.inputTypes == reg.nodes[f].inputTypes && n.inputChannels == reg.nodes[f].inputChannels
      && forall t :: Outputs(n, t) == ChannelsOf(reg, links, f, t)
    }

    /** The sender of a link gets one more output channel; every other node stays as it is. */
    static lemma LinkKeepsNodes(reg: Registry, links: seq<Link>, l: Link, nodes: map<string, Node>)
      requires NodesAgree(reg, links, nodes) && Resolves(reg, l)
      ensures l.FromSource? ==> NodesAgree(reg, links + [l], nodes)
      ensures !l.FromSource? ==>
        && l.from in nodes
        && NodesAgree(reg, links + [l], nodes[l.from := WithOutput(nodes[l.from], l.eventType, ChannelFor(reg, l))])
    {
      hide NodeAgrees, WithOutput, ChannelFor;
      var nodes' := if l.FromSource? then nodes
                    else nodes[l.from := WithOutput(nodes[l.from], l.eventType, ChannelFor(reg, l))];
      forall f | f in nodes ensures NodeAgrees(reg, links + [l], nodes'[f], f) {
        if !l.FromSource? && l.from == f {
          SenderAgrees(reg, links, l, nodes[f]);
        } else {
          OtherNodeAgrees(reg, links, l, nodes[f], f);
        }
      }
    }

    static lemma OtherNodeAgrees(reg: Registry, links: seq<Link>, l: Link, n: Node, f: string)
      requires NodeAgrees(reg, links, n, f) && (l.FromSource? || l.from != f)
      ensures NodeAgrees(reg, links + [l], n, f)
    {
      hide ChannelsOf, Outputs;
      forall t ensures ChannelsOf(reg, links + [l], f, t) == ChannelsOf(reg, links, f, t) {
        ChannelsOfSnoc(reg, links, l, f, t);
      }
    }

    static lemma SenderAgrees(reg: Registry, links: seq<Link>, l: Link, n: Node)
      requires !l.FromSource? && Resolves(reg, l) && NodeAgrees(reg, links, n, l.from)
      ensures NodeAgrees(reg, links + [l], WithOutput(n, l.eventType, ChannelFor(reg, l)), l.from)
    {
      hide ChannelsOf, Outputs, WithOutput, ChannelFor;
      var n' := WithOutput(n, l.eventType, ChannelFor(reg, l));
      OutputsOfSender(n, l.eventType, ChannelFor(reg, l));
      forall t ensures Outputs(n', t) == ChannelsOf(reg, links + [l], l.from, t) {
        ChannelsOfSnoc(reg, links, l, l.from, t);
      }
    }

    static lemma OutputsOfSender(n: Node, t: string, channel: nat)
      ensures WithOutput(n, t, channel).inputTypes == n.inputTypes
      ensures WithOutput(n, t, channel).inputChannels == n.inputChannels
      ensures forall u :: Outputs(WithOutput(n, t, channel), u) == Outputs(n, u) + if u == t then [channel] else []
    {
    }

    /** The link's ends are registered and its type is accepted. */
    ghost predicate Linkable(l: Link)
      reads this, dag
    {
      Resolves(reg, l) && match l
        case FromSource(source, q, t) => source in dag.sources && t in reg.nodes[q].inputTypes
        case Between(_, q, t) => t in reg.nodes[q].inputTypes
        case ToSink(_, _, _) => true
    }

    /** One of the three connect calls of the builder: it cannot fail, and it makes exactly this link. */
    method MakeLink(l: Link) returns (err: Option<BuildError>)
      requires Connected() && Linkable(l)
      modifies this`made, dag`nodes, dag`adapters, dag`kinds
      ensures err.None? && Connected() && made == old(made) + [l]
      ensures old(dag.Typed()) ==> dag.Typed()
    {
      hide ChannelsOf, AdaptersOf, NodesAgree, WithOutput;
      LinkKeepsNodes(reg, made, l, dag.nodes);
      ChannelsOfSnoc(reg, made, l, "", "");
      RegisteredNodes(reg, made, dag.nodes, l);
      match l {
        case FromSource(source, q, t) => err := dag.ConnectSourceToProcessor(source, q, t);
        case Between(f, q, t) => err := dag.Connect(f, q, t);
        case ToSink(f, k, t) => err := dag.ConnectProcessorToSink(f, k, t);
      }
      made := made + [l];
    }

    static lemma RegisteredNodes(reg: Registry, links: seq<Link>, nodes: map<string, Node>, l: Link)
      requires NodesAgree(reg, links, nodes) && Resolves(reg, l)
      ensures nodes.Keys == reg.nodes.Keys
      ensures forall f :: f in nodes ==>
        nodes[f].inputTypes == reg.nodes[f].inputTypes && nodes[f].inputChannels == reg.nodes[f].inputChannels
      ensures l.Between? ==>
        WithInput(nodes[l.to], l.eventType, 0) == nodes[l.to] && nodes[l.to := nodes[l.to]] == nodes
    {
      forall f | f in nodes
        ensures nodes[f].inputTypes == reg.nodes[f].inputTypes && nodes[f].inputChannels == reg.nodes[f].inputChannels
      {
        assert NodeAgrees(reg, links, nodes[f], f);
      }
    }

    /** Registration is complete. */
    ghost predicate Registered()
      reads this`reg, dag`sources
    {
      && DistinctIds(pipeline.sources) && DistinctIds(pipeline.processors)
      && (forall id :: id in dag.sources <==> Has(pipeline.sources, id))
      && (forall k :: k in reg.sinks <==> Has(pipeline.sinks, k))
      && exists limit :: NodesFor(reg.nodes, pipeline.processors, limit)
    }

    /** What registration says about one processor and one of its inputs. */
    lemma InputIsLinkable(q: Component, input: string, t: string)
      requires Registered() && q in pipeline.processors && input in q.inputs && t in InputTypes(pipeline, input)
      ensures q.id in reg.nodes && t in reg.nodes[q.id].inputTypes && t in reg.nodes[q.id].inputChannels
    {
      var limit :| NodesFor(reg.nodes, pipeline.processors, limit);
      var i :| 0 <= i < |pipeline.processors| && pipeline.processors[i] == q;
      assert NodeFor(reg.nodes[pipeline.processors[i].id], pipeline.processors[i]);
      InputsAreAccepted(pipeline, q.inputs, input, t);
    }

    lemma ProcessorsAreNodes(id: string)
      requires Registered()
      ensures id in reg.nodes <==> Has(pipeline.processors, id)
    {
      var limit :| NodesFor(reg.nodes, pipeline.processors, limit);
    }

    /** Connects one input of one processor, whether it is a source or another processor. */
    method ConnectInput(q: Component, input: string,
        sources: map<string, Component>, processors: map<string, Component>)
      requires Connected() && Registered() && q in pipeline.processors && input in q.inputs
      requires Indexes(sources, pipeline.sources) && Indexes(processors, pipeline.processors)
      modifies this`made, dag`nodes, dag`adapters, dag`kinds
      ensures Connected() && made == old(made) + TypeLinks(pipeline, input, q.id, InputTypes(pipeline, input))
      ensures old(dag.Typed()) ==> dag.Typed()
    {
      hide Connected, Registered, NodeFor, TypesOf;
      NamesAreDistinct();
      var types := LookupTypes(input, sources, processors);
      if input in sources {
        ConnectFromSource(q, input, types);
      } else {
        ConnectFromProcessor(q, input, types);
      }
    }

    method ConnectFromSource(q: Component, input: string, types: seq<string>)
      requires Connected() && Registered() && q in pipeline.processors && input in q.inputs
      requires types == InputTypes(pipeline, input) && Has(pipeline.sources, input)
      modifies this`made, dag`nodes, dag`adapters, dag`kinds
      ensures Connected() && made == old(made) + TypeLinks(pipeline, input, q.id, types)
      ensures old(dag.Typed()) ==> dag.Typed()
    {
      hide Connected, Registered, NodeFor, TypesOf;
      for i := 0 to |types|
        invariant old(dag.Typed()) ==> dag.Typed()
        invariant Connected() && Registered()
        invariant made == old(made) + TypeLinks(pipeline, input, q.id, types[..i])
      {
        InputIsLinkable(q, input, types[i]);
        SourceIsRegistered(input);
        var err := MakeLink(FromSource(input, q.id, types[i]));
        assert types[..i + 1][..i] == types[..i];
      }
      assert types[..|types|] == types;
    }

    method ConnectFromProcessor(q: Component, input: string, types: seq<string>)
      requires Connected() && Registered() && q in pipeline.processors && input in q.inputs
      requires types == InputTypes(pipeline, input) && !Has(pipeline.sources, input)
      modifies this`made, dag`nodes, dag`adapters, dag`kinds
      ensures Connected() && made == old(made) + TypeLinks(pipeline, input, q.id, types)
      ensures old(dag.Typed()) ==> dag.Typed()
    {
      hide Connected, Registered, NodeFor, TypesOf;
      for i := 0 to |types|
        invariant old(dag.Typed()) ==> dag.Typed()
        invariant Connected() && Registered()
        invariant made == old(made) + TypeLinks(pipeline, input, q.id, types[..i])
      {
        InputIsLinkable(q, input, types[i]);
        ProcessorsAreNodes(input);
        EmitterExists(input, types[i]);
        var err := MakeLink(Between(input, q.id, types[i]));
        assert types[..i + 1][..i] == types[..i];
      }
      assert types[..|types|] == types;
    }

    lemma NamesAreDistinct()
      requires Registered()
      ensures DistinctIds(pipeline.sources) && DistinctIds(pipeline.processors)
    {
    }

    lemma SourceIsRegistered(id: string)
      requires Registered() && Has(pipeline.sources, id)
      ensures id in dag.sources
    {
    }

    /** Only a processor that exists emits anything. */
    lemma EmitterExists(input: string, t: string)
      requires !Has(pipeline.sources, input) && t in InputTypes(pipeline, input)
      ensures Has(pipeline.processors, input)
    {
      if !Has(pipeline.processors, input) {
        TypesOfNone(pipeline.processors, input);
      }
    }

    /** The output types of the component an input names; none if nothing has that name. */
    method LookupTypes(input: string, sources: map<string, Component>, processors: map<string, Component>)
      returns (types: seq<string>)
      requires DistinctIds(pipeline.sources) && DistinctIds(pipeline.processors)
      requires Indexes(sources, pipeline.sources) && Indexes(processors, pipeline.processors)
      ensures types == InputTypes(pipeline, input)
    {
      if input in sources {
        types := sources[input].outputTypes;
        var i :| 0 <= i < |pipeline.sources| && pipeline.sources[i].id == input;
        TypesOfTheOne(pipeline.sources, i);
      } else if input in processors {
        types := processors[input].outputTypes;
        var i :| 0 <= i < |pipeline.processors| && pipeline.processors[i].id == input;
        TypesOfTheOne(pipeline.processors, i);
      } else {
        types := [];
        TypesOfNone(pipeline.processors, input);
      }
    }

    /** Connects all inputs of one processor. */
    method ConnectInputs(q: Component, sources: map<string, Component>, processors: map<string, Component>)
      requires Connected() && Registered() && q in pipeline.processors
      requires Indexes(sources, pipeline.sources) && Indexes(processors, pipeline.processors)
      modifies this`made, dag`nodes, dag`adapters, dag`kinds
      ensures Connected() && Registered() && made == old(made) + InputLinks(pipeline, q.id, q.inputs)
      ensures old(dag.Typed()) ==> dag.Typed()
    {
      hide Connected, Registered, Indexes, TypeLinks, InputTypes;
      for j := 0 to |q.inputs|
        invariant old(dag.Typed()) ==> dag.Typed()
        invariant Connected() && Registered()
        invariant made == old(made) + InputLinks(pipeline, q.id, q.inputs[..j])
      {
        ConnectInput(q, q.inputs[j], sources, processors);
        assert q.inputs[..j + 1][..j] == q.inputs[..j];
      }
      assert q.inputs[..|q.inputs|] == q.inputs;
    }

    method ConnectProcessors(sources: map<string, Component>, processors: map<string, Component>)
      requires Connected() && Registered() && made == []
      requires Indexes(sources, pipeline.sources) && Indexes(processors, pipeline.processors)
      modifies this`made, dag`nodes, dag`adapters, dag`kinds
      ensures Connected() && made == ProcessorLinks(pipeline, pipeline.processors)
      ensures old(dag.Typed()) ==> dag.Typed()
    {
      hide Connected, Registered, Indexes, InputLinks;
      var cs := pipeline.processors;
      for i := 0 to |cs|
        invariant old(dag.Typed()) ==> dag.Typed()
        invariant Connected() && Registered()
        invariant made == ProcessorLinks(pipeline, cs[..i])
      {
        ConnectInputs(cs[i], sources, processors);
        assert cs[..i + 1][..i] == cs[..i];
      }
      assert cs[..|cs|] == cs;
    }

    /** A sink is fed only by the processors among its inputs. */
    method ConnectSinkInput(sink: Component, input: string, processors: map<string, Component>)
      requires Connected() && Registered() && sink in pipeline.sinks
      requires Indexes(processors, pipeline.processors)
      modifies this`made, dag`nodes, dag`adapters, dag`kinds
      ensures Connected() && made == old(made) + SinkTypeLinks(input, sink.id, TypesOf(pipeline.processors, input))
      ensures old(dag.Typed()) ==> dag.Typed()
    {
      hide Connected, Registered, TypesOf;
      NamesAreDistinct();
      if input !in processors {
        TypesOfNone(pipeline.processors, input);
        return;
      }
      var types := processors[input].outputTypes;
      ghost var k :| 0 <= k < |pipeline.processors| && pipeline.processors[k].id == input;
      TypesOfTheOne(pipeline.processors, k);
      ProcessorsAreNodes(input);
      SinkIsRegistered(sink);
      for i := 0 to |types|
        invariant old(dag.Typed()) ==> dag.Typed()
        invariant Connected()
        invariant made == old(made) + SinkTypeLinks(input, sink.id, types[..i])
      {
        var err := MakeLink(ToSink(input, sink.id, types[i]));
        assert types[..i + 1][..i] == types[..i];
      }
      assert types[..|types|] == types;
    }

    lemma SinkIsRegistered(sink: Component)
      requires Registered() && sink in pipeline.sinks
      ensures sink.id in reg.sinks
    {
    }

    /** Connects all inputs of one sink. */
    method ConnectSink(sink: Component, processors: map<string, Component>)
      requires Connected() && Registered() && sink in pipeline.sinks && Indexes(processors, pipeline.processors)
      modifies this`made, dag`nodes, dag`adapters, dag`kinds
      ensures Connected() && Registered() && made == old(made) + SinkInputLinks(pipeline, sink.id, sink.inputs)
      ensures old(dag.Typed()) ==> dag.Typed()
    {
      hide Connected, Registered, Indexes, SinkTypeLinks, TypesOf;
      for j := 0 to |sink.inputs|
        invariant old(dag.Typed()) ==> dag.Typed()
        invariant Connected() && Registered()
        invariant made == old(made) + SinkInputLinks(pipeline, sink.id, sink.inputs[..j])
      {
        ConnectSinkInput(sink, sink.inputs[j], processors);
        assert sink.inputs[..j + 1][..j] == sink.inputs[..j];
      }
      assert sink.inputs[..|sink.inputs|] == sink.inputs;
    }

    method ConnectSinks(processors: map<string, Component>)
      requires Connected() && Registered() && Indexes(processors, pipeline.processors)
      modifies this`made, dag`nodes, dag`adapters, dag`kinds
      ensures Connected() && made == old(made) + SinkLinks(pipeline, pipeline.sinks)
      ensures old(dag.Typed()) ==> dag.Typed()
    {
      hide Connected, Registered, Indexes, SinkInputLinks;
      var cs := pipeline.sinks;
      for i := 0 to |cs|
        invariant old(dag.Typed()) ==> dag.Typed()
        invariant Connected() && Registered()
        invariant made == old(made) + SinkLinks(pipeline, cs[..i])
      {
        ConnectSink(cs[i], processors);
        assert cs[..i + 1][..i] == cs[..i];
      }
      assert cs[..|cs|] == cs;
    }

    /**
     buildPipelineGraph. It fails exactly on a repeated source or processor name, never because a type is not
     accepted; otherwise every link the pipeline implies is made, in order, and no other.
     */
    method BuildPipelineGraph() returns (err: Option<BuildError>)
      requires dag.nodes == map[] && dag.sources == map[] && dag.sinkChannels == map[] && dag.adapters == []
      modifies this`made, this`reg, dag
      ensures err.None? <==> DistinctIds(pipeline.sources) && DistinctIds(pipeline.processors)
      ensures err.Some? ==> err.value.DuplicateSource? || err.value.DuplicateProcessor?
      ensures err.None? ==> Connected() && Registered() && made == Links(pipeline) && DistinctChannels(reg)
      ensures old(dag.Typed()) ==> dag.Typed()
    {
      hide Connected, NodesFor, SinksFor, DistinctChannels, Indexes, ProcessorLinks, SinkLinks;
      err := RegisterSources();
      if err.Some? {
        return;
      }
      err := RegisterProcessors();
      if err.Some? {
        return;
      }
      ghost var floor := |dag.kinds|;
      RegisterSinks();
      reg := Registry(dag.nodes, dag.sinkChannels);
      made := [];
      StartConnected(floor, |dag.kinds|);
      var sources := Index(pipeline.sources);
      var processors := Index(pipeline.processors);
      ConnectProcessors(sources, processors);
      ConnectSinks(processors);
    }

    lemma StartConnected(floor: nat, limit: nat)
      requires made == [] && dag.adapters == [] && reg == Registry(dag.nodes, dag.sinkChannels)
      requires NodesFor(reg.nodes, pipeline.processors, floor) && SinksFor(reg.sinks, pipeline.sinks, floor, limit)
      requires DistinctIds(pipeline.sources) && DistinctIds(pipeline.processors)
      requires forall id :: id in dag.sources <==> Has(pipeline.sources, id)
      ensures Connected() && Registered() && DistinctChannels(reg)
    {
      forall f | f in reg.nodes ensures NodeAgrees(reg, [], dag.nodes[f], f) {
        var i :| 0 <= i < |pipeline.processors| && pipeline.processors[i].id == f;
        assert NodeFor(reg.nodes[pipeline.processors[i].id], pipeline.processors[i]);
      }
    }

    /**
     After building, processor f lists for type t the input channel of each processor for type t as often as f occurs
     among that processor's inputs times as often as t occurs among f's output types, and no channel for another type;
     a name that is also a source gives nothing.
     */
    lemma ProcessorOutputs(f: string, t: string, k: nat, u: string)
      requires Connected() && Registered() && made == Links(pipeline) && DistinctChannels(reg)
      requires f in dag.nodes && k < |pipeline.processors|
      requires pipeline.processors[k].id in dag.nodes && u in dag.nodes[pipeline.processors[k].id].inputChannels
      ensures var q := pipeline.processors[k];
              Times(dag.nodes[q.id].inputChannels[u], Outputs(dag.nodes[f], t)) ==
              if t != u || Has(pipeline.sources, f) then 0
              else Times(f, q.inputs) * Times(t, TypesOf(pipeline.processors, f))
    {
      hide ProcessorLinks, SinkLinks, TypesOf, DistinctChannels, ChannelsOf;
      var q := pipeline.processors[k];
      var l := Between(f, q.id, t);
      assert NodeAgrees(reg, made, dag.nodes[f], f) && NodeAgrees(reg, made, dag.nodes[q.id], q.id);
      if t != u {
        ListedForItsTypeOnly(reg, made, f, t, q.id, u);
        return;
      }
      ListedAsOftenAsLinked(reg, made, l);
      TimesConcat(l, ProcessorLinks(pipeline, pipeline.processors), SinkLinks(pipeline, pipeline.sinks));
      ProcessorLinkTimes(pipeline, pipeline.processors, k, f, t);
      SinksLinkNoProcessor(pipeline, pipeline.sinks, l);
    }

    /**
     After building, there are as many adapters from source s to a processor for type t as s occurs among the
     processor's inputs times t occurs among the output types of s; and none from anything that is no source.
     */
    lemma SourceAdapters(s: string, t: string, k: nat)
      requires Connected() && Registered() && made == Links(pipeline) && k < |pipeline.processors|
      ensures var q := pipeline.processors[k];
              multiset(dag.adapters)[AdapterLink(s, q.id, t)] ==
              if Has(pipeline.sources, s) then Times(s, q.inputs) * Times(t, TypesOf(pipeline.sources, s)) else 0
    {
      hide ProcessorLinks, SinkLinks, TypesOf, Has, AdaptersOf, NodesAgree;
      var q := pipeline.processors[k];
      var l := FromSource(s, q.id, t);
      TimesIsMultiplicity(AdapterLink(s, q.id, t), dag.adapters);
      AdapterTimes(made, s, q.id, t);
      TimesConcat(l, ProcessorLinks(pipeline, pipeline.processors), SinkLinks(pipeline, pipeline.sinks));
      AdapterLinkTimes(pipeline, pipeline.processors, k, s, t);
      SinksLinkNoProcessor(pipeline, pipeline.sinks, l);
    }

    /** Each of these adapters takes from its source's channel and sends to its processor's channel for the type. */
    lemma AdapterReachesProcessor(i: nat)
      requires Connected() && Registered() && made == Links(pipeline) && i < |dag.adapters|
      ensures var a := dag.adapters[i];
              && a.source in dag.sources && a.processor in dag.nodes
              && a.eventType in dag.nodes[a.processor].inputChannels
              && AdapterJob(a, dag.sources, dag.nodes) ==
                 E.Adapter(dag.sources[a.source], a.eventType, Some(dag.nodes[a.processor].inputChannels[a.eventType]))
    {
      hide ChannelsOf, ProcessorLinks, SinkLinks, NodesFor;
      var j := AdapterHasLink(made, i);
      assert Resolves(reg, made[j]);
      RegisteredNodes(reg, made, dag.nodes, made[j]);
      ProcessorsAreNodes(made[j].processor);
      LinkedSourceExists(made[j]);
    }

    lemma LinkedSourceExists(l: Link)
      requires DistinctIds(pipeline.processors) && l.FromSource? && l in Links(pipeline)
      requires Has(pipeline.processors, l.processor)
      ensures Has(pipeline.sources, l.source)
    {
      hide ProcessorLinks, SinkLinks, TypesOf;
      var k :| 0 <= k < |pipeline.processors| && pipeline.processors[k].id == l.processor;
      TimesIsMultiplicity(l, Links(pipeline));
      TimesConcat(l, ProcessorLinks(pipeline, pipeline.processors), SinkLinks(pipeline, pipeline.sinks));
      AdapterLinkTimes(pipeline, pipeline.processors, k, l.source, l.eventType);
      SinksLinkNoProcessor(pipeline, pipeline.sinks, l);
    }

    static lemma {:induction false} AdapterHasLink(links: seq<Link>, i: nat) returns (j: nat)
      requires i < |AdaptersOf(links)|
      ensures j < |links| && links[j].FromSource?
      ensures AdaptersOf(links)[i] == AdapterLink(links[j].source, links[j].processor, links[j].eventType)
    {
      var init, last := links[..|links| - 1], links[|links| - 1];
      if i < |AdaptersOf(init)| {
        j := AdapterHasLink(init, i);
      } else {
        j := |init|;
      }
    }

    /** A registered processor has a channel for exactly the types that the components among its inputs emit. */
    lemma ProcessorAccepts(k: nat, t: string)
      requires Connected() && Registered() && k < |pipeline.processors|
      ensures var q := pipeline.processors[k];
              && q.id in dag.nodes
              && (t in dag.nodes[q.id].inputChannels <==>
                    exists i :: 0 <= i < |q.inputs| && (t in TypesOf(pipeline.sources, q.inputs[i])
                                                        || t in TypesOf(pipeline.processors, q.inputs[i])))
    {
      hide ChannelsOf, TypesOf, Outputs;
      var q := pipeline.processors[k];
      var limit :| NodesFor(reg.nodes, pipeline.processors, limit);
      assert NodeFor(reg.nodes[q.id], q);
      assert NodeAgrees(reg, made, dag.nodes[q.id], q.id);
      AcceptedTypesAre(pipeline, q.inputs, t);
    }

    /** Likewise for sinks, when their names are distinct. */
    lemma SinkOutputs(f: string, t: string, k: nat)
      requires Connected() && Registered() && made == Links(pipeline) && DistinctChannels(reg)
      requires f in dag.nodes && k < |pipeline.sinks| && DistinctIds(pipeline.sinks)
      ensures var sink := pipeline.sinks[k];
              && sink.id in dag.sinkChannels
              && Times(dag.sinkChannels[sink.id], Outputs(dag.nodes[f], t)) ==
                 Times(f, sink.inputs) * Times(t, TypesOf(pipeline.processors, f))
    {
      hide ProcessorLinks, SinkLinks, TypesOf, DistinctChannels, ChannelsOf;
      var sink := pipeline.sinks[k];
      var l := ToSink(f, sink.id, t);
      SinkIsRegistered(sink);
      assert NodeAgrees(reg, made, dag.nodes[f], f);
      ListedAsOftenAsLinked(reg, made, l);
      TimesConcat(l, ProcessorLinks(pipeline, pipeline.processors), SinkLinks(pipeline, pipeline.sinks));
      SinkLinkTimes(pipeline, pipeline.sinks, k, f, t);
      ProcessorsLinkNoSink(pipeline, pipeline.processors, l);
    }
  }

  lemma {:induction false} SinksLinkNoProcessor(p: Pipeline, sinks: seq<Component>, l: Link)
    requires !l.ToSink?
    ensures Times(l, SinkLinks(p, sinks)) == 0
  {
    if sinks != [] {
      var init, last := sinks[..|sinks| - 1], sinks[|sinks| - 1];
      SinksLinkNoProcessor(p, init, l);
      SinkInputsLinkNoProcessor(p, last.id, last.inputs, l);
      TimesConcat(l, SinkLinks(p, init), SinkInputLinks(p, last.id, last.inputs));
    }
  }

  lemma {:induction false} SinkInputsLinkNoProcessor(p: Pipeline, sink: string, inputs: seq<string>, l: Link)
    requires !l.ToSink?
    ensures Times(l, SinkInputLinks(p, sink, inputs)) == 0
  {
    if inputs != [] {
      var init, last := inputs[..|inputs| - 1], inputs[|inputs| - 1];
      SinkInputsLinkNoProcessor(p, sink, init, l);
      SinkTypesLinkNoProcessor(last, sink, TypesOf(p.processors, last), l);
      TimesConcat(l, SinkInputLinks(p, sink, init), SinkTypeLinks(last, sink, TypesOf(p.processors, last)));
    }
  }

  lemma {:induction false} SinkTypesLinkNoProcessor(from: string, sink: string, types: seq<string>, l: Link)
    requires !l.ToSink?
    ensures Times(l, SinkTypeLinks(from, sink, types)) == 0
  {
    if types != [] {
      SinkTypesLinkNoProcessor(from, sink, types[..|types| - 1], l);
      TimesConcat(l, SinkTypeLinks(from, sink, types[..|types| - 1]), [ToSink(from, sink, types[|types| - 1])]);
    }
  }

  lemma {:induction false} ProcessorsLinkNoSink(p: Pipeline, processors: seq<Component>, l: Link)
    requires l.ToSink?
    ensures Times(l, ProcessorLinks(p, processors)) == 0
  {
    if processors != [] {
      var init, last := processors[..|processors| - 1], processors[|processors| - 1];
      ProcessorsLinkNoSink(p, init, l);
      InputsLinkNoSink(p, last.id, last.inputs, l);
      TimesConcat(l, ProcessorLinks(p, init), InputLinks(p, last.id, last.inputs));
    }
  }

  lemma {:induction false} InputsLinkNoSink(p: Pipeline, to: string, inputs: seq<string>, l: Link)
    requires l.ToSink?
    ensures Times(l, InputLinks(p, to, inputs)) == 0
  {
    if inputs != [] {
      var init, last := inputs[..|inputs| - 1], inputs[|inputs| - 1];
      InputsLinkNoSink(p, to, init, l);
      TypesLinkNoSink(p, last, to, InputTypes(p, last), l);
      TimesConcat(l, InputLinks(p, to, init), TypeLinks(p, last, to, InputTypes(p, last)));
    }
  }

  lemma {:induction false} TypesLinkNoSink(p: Pipeline, input: string, to: string, types: seq<string>, l: Link)
    requires l.ToSink?
    ensures Times(l, TypeLinks(p, input, to, types)) == 0
  {
    if types != [] {
      var init, t := types[..|types| - 1], types[|types| - 1];
      TypesLinkNoSink(p, input, to, init, l);
      TimesConcat(l, TypeLinks(p, input, to, init),
                  if Has(p.sources, input) then [FromSource(input, to, t)] else [Between(input, to, t)]);
    }
  }
}
