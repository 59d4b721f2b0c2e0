/**
 The DAG while it is being connected: nodes, the channels made so far, and the adapters launched by
 ConnectSourceToProcessor. A channel is known by its number, in order of creation.
 */
module DagBuild {
  import opened Wrappers
  import E = DagEngine
  import C = DagCycle

  datatype Node = Node(
    inputTypes: seq<string>, inputChannels: map<string, nat>, outputChannels: map<string, seq<nat>>)

  datatype AdapterLink = AdapterLink(source: string, processor: string, eventType: string)

  datatype BuildError =
    | DuplicateProcessor(id: string)
    | DuplicateSource(id: string)
    | NotFound(id: string)
    | NotAccepted(id: string, eventType: string)

  /** A processor loop: it reads the processor's input channel for this type. */
  datatype LoopId = LoopId(processor: string, eventType: string)

  datatype StartError =
    | NotOpened(source: string)
    | NotInitialized(processor: string)

  /** The channels listed for a type; none if the type was never connected. */
  function Outputs(n: Node, t: string): seq<nat> {
    if t in n.outputChannels then n.outputChannels[t] else []
  }

  function WithOutput(n: Node, t: string, channel: nat): Node {
    n.(outputChannels := n.outputChannels[t := Outputs(n, t) + [channel]])
  }

  /** The input channel for a type, made with number `next` if the node has none. */
  function WithInput(n: Node, t: string, next: nat): Node {
    if t in n.inputChannels then n else n.(inputChannels := n.inputChannels[t := next])
  }

  /** One channel per position of the type list; a repeated type keeps the channel made last. */
  function InputChannelsFor(types: seq<string>, next: nat): map<string, nat> {
    if types == [] then map[]
    else InputChannelsFor(types[..|types| - 1], next)[types[|types| - 1] := next + |types| - 1]
  }

  lemma {:induction false} InputChannelsCover(types: seq<string>, next: nat)
    ensures forall t :: t in InputChannelsFor(types, next) <==> t in types
    ensures forall t :: t in types ==> next <= InputChannelsFor(types, next)[t] < next + |types|
    ensures forall t, u :: t in types && u in types && t != u ==>
      InputChannelsFor(types, next)[t] != InputChannelsFor(types, next)[u]
  {
    if types != [] {
      var init := types[..|types| - 1];
      InputChannelsCover(init, next);
      assert types == init + [types[|types| - 1]];
    }
  }

  predicate Is(kinds: seq<E.Kind>, channel: nat, kind: E.Kind) {
    channel < |kinds| && kinds[channel] == kind
  }

  predicate NodeTyped(kinds: seq<E.Kind>, n: Node) {
    && (forall t :: t in n.inputChannels ==> Is(kinds, n.inputChannels[t], E.InputChannel))
    && forall t :: t in n.outputChannels ==> Writable(kinds, n.outputChannels[t])
  }

  /** A processor may write to input channels and sink channels. */
  predicate Writable(kinds: seq<E.Kind>, channels: seq<nat>) {
    forall k :: 0 <= k < |channels| ==> channels[k] < |kinds| && kinds[channels[k]] != E.SourceChannel
  }

  predicate ChannelsTyped(kinds: seq<E.Kind>, sources: map<string, nat>, sinks: map<string, nat>) {
    && (forall id :: id in sources ==> Is(kinds, sources[id], E.SourceChannel))
    && forall id :: id in sinks ==> Is(kinds, sinks[id], E.SinkChannel)
  }

  predicate NodesTyped(kinds: seq<E.Kind>, nodes: map<string, Node>) {
    forall id :: id in nodes ==> NodeTyped(kinds, nodes[id])
  }

  /** Some processor reads the channel. */
  predicate Owned(nodes: map<string, Node>, c: nat) {
    exists q, t :: q in nodes && t in nodes[q].inputChannels && nodes[q].inputChannels[t] == c
  }

  predicate ListOwned(kinds: seq<E.Kind>, nodes: map<string, Node>, channels: seq<nat>) {
    forall k :: 0 <= k < |channels| ==> Is(kinds, channels[k], E.SinkChannel) || Owned(nodes, channels[k])
  }

  /** Every channel that a processor writes is a sink's or some processor's input. */
  predicate ListsOwned(kinds: seq<E.Kind>, nodes: map<string, Node>) {
    forall id, t :: id in nodes && t in nodes[id].outputChannels ==>
      ListOwned(kinds, nodes, nodes[id].outputChannels[t])
  }

  /** Nodes and their input channels only become more. */
  predicate Grows(before: map<string, Node>, after: map<string, Node>) {
    forall q :: q in before ==> q in after && MoreInputs(before[q], after[q])
  }

  predicate MoreInputs(before: Node, after: Node) {
    forall t :: t in before.inputChannels ==>
      t in after.inputChannels && after.inputChannels[t] == before.inputChannels[t]
  }

  lemma GrowingKeepsOwned(kinds: seq<E.Kind>, added: seq<E.Kind>, before: map<string, Node>, after: map<string, Node>,
      channels: seq<nat>)
    requires Grows(before, after) && ListOwned(kinds, before, channels)
    ensures ListOwned(kinds + added, after, channels)
  {
    forall k | 0 <= k < |channels| ensures Is(kinds + added, channels[k], E.SinkChannel) || Owned(after, channels[k]) {
      if Owned(before, channels[k]) {
        var q, t :| q in before && t in before[q].inputChannels && before[q].inputChannels[t] == channels[k];
        assert q in after && t in after[q].inputChannels && after[q].inputChannels[t] == channels[k];
      }
    }
  }

  /** One node is added or changed: its lists are old ones, or new and owned. */
  lemma NodeKeepsOwned(kinds: seq<E.Kind>, added: seq<E.Kind>, nodes: map<string, Node>, id: string, n: Node)
    requires ListsOwned(kinds, nodes) && Grows(nodes, nodes[id := n])
    requires forall t :: t in n.outputChannels ==>
      || (id in nodes && t in nodes[id].outputChannels && n.outputChannels[t] == nodes[id].outputChannels[t])
      || ListOwned(kinds + added, nodes[id := n], n.outputChannels[t])
    ensures ListsOwned(kinds + added, nodes[id := n])
  {
    hide ListOwned, Grows;
    var after := nodes[id := n];
    forall q, t | q in after && t in after[q].outputChannels
      ensures ListOwned(kinds + added, after, after[q].outputChannels[t])
    {
      if q in nodes && t in nodes[q].outputChannels && after[q].outputChannels[t] == nodes[q].outputChannels[t] {
        GrowingKeepsOwned(kinds, added, nodes, after, nodes[q].outputChannels[t]);
      }
    }
  }

  lemma NewNodeKeepsOwned(kinds: seq<E.Kind>, added: seq<E.Kind>, nodes: map<string, Node>, id: string, n: Node)
    requires ListsOwned(kinds, nodes) && id !in nodes && n.outputChannels == map[]
    ensures ListsOwned(kinds + added, nodes[id := n])
  {
    NodeKeepsOwned(kinds, added, nodes, id, n);
  }

  lemma InputKeepsOwned(kinds: seq<E.Kind>, added: seq<E.Kind>, nodes: map<string, Node>, id: string,
      t: string, next: nat)
    requires ListsOwned(kinds, nodes) && id in nodes
    ensures ListsOwned(kinds + added, nodes[id := WithInput(nodes[id], t, next)])
  {
    NodeKeepsOwned(kinds, added, nodes, id, WithInput(nodes[id], t, next));
  }

  lemma OutputKeepsOwned(kinds: seq<E.Kind>, nodes: map<string, Node>, id: string, t: string, c: nat)
    requires ListsOwned(kinds, nodes) && id in nodes && (Is(kinds, c, E.SinkChannel) || Owned(nodes, c))
    ensures ListsOwned(kinds, nodes[id := WithOutput(nodes[id], t, c)])
  {
    var n := WithOutput(nodes[id], t, c);
    var after := nodes[id := n];
    assert kinds + [] == kinds;
    assert ListOwned(kinds, nodes, [c]);
    GrowingKeepsOwned(kinds, [], nodes, after, [c]);
    if t in nodes[id].outputChannels {
      GrowingKeepsOwned(kinds, [], nodes, after, nodes[id].outputChannels[t]);
    }
    assert ListOwned(kinds, after, n.outputChannels[t]) by {
      assert [c][0] == c;
    }
    NodeKeepsOwned(kinds, [], nodes, id, n);
  }

  predicate AdaptersKnown(adapters: seq<AdapterLink>, sources: map<string, nat>, nodes: map<string, Node>) {
    forall i :: 0 <= i < |adapters| ==> adapters[i].source in sources && adapters[i].processor in nodes
  }

  /** Making channels disturbs none of those made before. */
  lemma ChannelsAdded(kinds: seq<E.Kind>, added: seq<E.Kind>, sources: map<string, nat>,
      sinks: map<string, nat>, nodes: map<string, Node>)
    ensures ChannelsTyped(kinds, sources, sinks) ==> ChannelsTyped(kinds + added, sources, sinks)
    ensures NodesTyped(kinds, nodes) ==> NodesTyped(kinds + added, nodes)
    ensures ListsOwned(kinds, nodes) ==> ListsOwned(kinds + added, nodes)
  {
    if ListsOwned(kinds, nodes) {
      forall id, t | id in nodes && t in nodes[id].outputChannels
        ensures ListOwned(kinds + added, nodes, nodes[id].outputChannels[t])
      {
        GrowingKeepsOwned(kinds, added, nodes, nodes, nodes[id].outputChannels[t]);
      }
    }
    if NodesTyped(kinds, nodes) {
      forall id | id in nodes ensures NodeTyped(kinds + added, nodes[id]) {
        MoreChannels(kinds, added, nodes[id]);
      }
    }
  }

  lemma MoreChannels(kinds: seq<E.Kind>, added: seq<E.Kind>, n: Node)
    requires NodeTyped(kinds, n)
    ensures NodeTyped(kinds + added, n)
  {
    forall t | t in n.outputChannels ensures Writable(kinds + added, n.outputChannels[t]) {
      assert Writable(kinds, n.outputChannels[t]);
    }
  }

  lemma NewNodeTyped(kinds: seq<E.Kind>, types: seq<string>)
    ensures NodeTyped(kinds + seq(|types|, _ => E.InputChannel), Node(types, InputChannelsFor(types, |kinds|), map[]))
  {
    InputChannelsCover(types, |kinds|);
  }

  lemma WithInputTyped(kinds: seq<E.Kind>, n: Node, t: string)
    requires NodeTyped(kinds, n)
    ensures NodeTyped(kinds + if t in n.inputChannels then [] else [E.InputChannel], WithInput(n, t, |kinds|))
  {
    MoreChannels(kinds, if t in n.inputChannels then [] else [E.InputChannel], n);
  }

  lemma WithOutputTyped(kinds: seq<E.Kind>, n: Node, t: string, channel: nat)
    requires NodeTyped(kinds, n) && channel < |kinds| && kinds[channel] != E.SourceChannel
    ensures NodeTyped(kinds, WithOutput(n, t, channel))
  {
    assert Writable(kinds, Outputs(n, t));
  }

  class Dag {
    var nodes: map<string, Node>
    var sources: map<string, nat>
    var sinkChannels: map<string, nat>
    var adapters: seq<AdapterLink>
    var kinds: seq<E.Kind>

    /** Every channel the DAG refers to exists and is of the kind its place calls for. */
    ghost predicate Typed()
      reads this
    {
      && ChannelsTyped(kinds, sources, sinkChannels) && NodesTyped(kinds, nodes) && ListsOwned(kinds, nodes)
      && AdaptersKnown(adapters, sources, nodes)
    }

    constructor ()
      ensures Typed()
      ensures nodes == map[] && sources == map[] && sinkChannels == map[] && adapters == [] && kinds == []
    {
      nodes, sources, sinkChannels, adapters, kinds := map[], map[], map[], [], [];
    }

    method AddProcessor(id: string, inputTypes: seq<string>) returns (err: Option<BuildError>)
      modifies this`nodes, this`kinds
      ensures id in old(nodes) ==> err == Some(DuplicateProcessor(id)) && nodes == old(nodes) && kinds == old(kinds)
      ensures id !in old(nodes) ==>
        && err.None?
        && nodes == old(nodes)[id := Node(inputTypes, InputChannelsFor(inputTypes, |old(kinds)|), map[])]
        && kinds == old(kinds) + seq(|inputTypes|, _ => E.InputChannel)
      ensures old(Typed()) ==> Typed()
    {
      if id in nodes {
        return Some(DuplicateProcessor(id));
      }
      var channels: map<string, nat> := map[];
      var next := |kinds|;
      for i := 0 to |inputTypes|
        invariant channels == InputChannelsFor(inputTypes[..i], next)
        invariant kinds == old(kinds) + seq(i, _ => E.InputChannel)
        invariant nodes == old(nodes)
      {
        assert inputTypes[..i + 1][..i] == inputTypes[..i];
        channels := channels[inputTypes[i] := next + i];
        kinds := kinds + [E.InputChannel];
      }
      assert inputTypes[..|inputTypes|] == inputTypes;
      ChannelsAdded(old(kinds), seq(|inputTypes|, _ => E.InputChannel), sources, sinkChannels, nodes);
      NewNodeTyped(old(kinds), inputTypes);
      if old(Typed()) {
        NewNodeKeepsOwned(old(kinds), seq(|inputTypes|, _ => E.InputChannel), nodes, id,
          Node(inputTypes, channels, map[]));
      }
      nodes := nodes[id := Node(inputTypes, channels, map[])];
      err := None;
    }

    method AddSource(id: string) returns (err: Option<BuildError>)
      modifies this`sources, this`kinds
      ensures id in old(sources) ==> err == Some(DuplicateSource(id)) && sources == old(sources) && kinds == old(kinds)
      ensures id !in old(sources) ==>
        err.None? && sources == old(sources)[id := |old(kinds)|] && kinds == old(kinds) + [E.SourceChannel]
      ensures old(Typed()) ==> Typed()
    {
      if id in sources {
        return Some(DuplicateSource(id));
      }
      ChannelsAdded(kinds, [E.SourceChannel], sources, sinkChannels, nodes);
      sources := sources[id := |kinds|];
      kinds := kinds + [E.SourceChannel];
      err := None;
    }

    /** A second sink of the same name replaces the first one's channel, which Stop then no longer closes. */
    method AddSinkChannel(id: string) returns (channel: nat)
      modifies this`sinkChannels, this`kinds
      ensures channel == |old(kinds)| && sinkChannels == old(sinkChannels)[id := channel]
      ensures kinds == old(kinds) + [E.SinkChannel]
      ensures old(Typed()) ==> Typed()
    {
      ChannelsAdded(kinds, [E.SinkChannel], sources, sinkChannels, nodes);
      channel := |kinds|;
      sinkChannels := sinkChannels[id := channel];
      kinds := kinds + [E.SinkChannel];
    }

    method Connect(fromId: string, toId: string, eventType: string) returns (err: Option<BuildError>)
      modifies this`nodes, this`kinds
      ensures err.None? <==> fromId in old(nodes) && toId in old(nodes) && eventType in old(nodes)[toId].inputTypes
      ensures err.Some? ==> nodes == old(nodes) && kinds == old(kinds)
      ensures err.Some? && fromId !in old(nodes) ==> err.value == NotFound(fromId)
      ensures err.Some? && fromId in old(nodes) ==>
        err.value == if toId !in old(nodes) then NotFound(toId) else NotAccepted(toId, eventType)
      ensures err.None? ==>
        var receiver := WithInput(old(nodes)[toId], eventType, |old(kinds)|);
        var made := old(nodes)[toId := receiver];
        && nodes == made[fromId := WithOutput(made[fromId], eventType, receiver.inputChannels[eventType])]
        && kinds == old(kinds) + (if eventType in old(nodes)[toId].inputChannels then [] else [E.InputChannel])
      ensures old(Typed()) ==> Typed()
    {
      if fromId !in nodes {
        return Some(NotFound(fromId));
      }
      if toId !in nodes {
        return Some(NotFound(toId));
      }
      if eventType !in nodes[toId].inputTypes {
        return Some(NotAccepted(toId, eventType));
      }
      var channel := InputChannelOf(toId, eventType);
      ListChannel(fromId, eventType, channel);
      err := None;
    }

    /** The input channel of a node for a type, made if the node has none. */
    method InputChannelOf(id: string, eventType: string) returns (channel: nat)
      requires id in nodes
      modifies this`nodes, this`kinds
      ensures nodes == old(nodes)[id := WithInput(old(nodes)[id], eventType, |old(kinds)|)]
      ensures channel == nodes[id].inputChannels[eventType]
      ensures kinds == old(kinds) + if eventType in old(nodes)[id].inputChannels then [] else [E.InputChannel]
      ensures old(Typed()) ==> Typed() && Is(kinds, channel, E.InputChannel)
    {
      ghost var added := if eventType in nodes[id].inputChannels then [] else [E.InputChannel];
      ChannelsAdded(kinds, added, sources, sinkChannels, nodes);
      if old(Typed()) {
        WithInputTyped(kinds, nodes[id], eventType);
        InputKeepsOwned(kinds, added, nodes, id, eventType, |kinds|);
      }
      if eventType !in nodes[id].inputChannels {
        nodes := nodes[id := WithInput(nodes[id], eventType, |kinds|)];
        kinds := kinds + [E.InputChannel];
      }
      channel := nodes[id].inputChannels[eventType];
    }

    /** One more channel among a node's outputs for a type. */
    method ListChannel(id: string, eventType: string, channel: nat)
      requires id in nodes
      modifies this`nodes
      ensures nodes == old(nodes)[id := WithOutput(old(nodes)[id], eventType, channel)]
      ensures old(Typed()) && Is(kinds, channel, E.SinkChannel) ==> Typed()
      ensures old(Typed()) && Is(kinds, channel, E.InputChannel) && Owned(old(nodes), channel) ==> Typed()
    {
      if
        && Typed()
        && (Is(kinds, channel, E.SinkChannel) || (Is(kinds, channel, E.InputChannel) && Owned(nodes, channel)))
      {
        WithOutputTyped(kinds, nodes[id], eventType, channel);
        OutputKeepsOwned(kinds, nodes, id, eventType, channel);
      }
      nodes := nodes[id := WithOutput(nodes[id], eventType, channel)];
    }

    /** Launches one more adapter; adapters of one source compete for its events. */
    method ConnectSourceToProcessor(sourceId: string, processorId: string, eventType: string)
      returns (err: Option<BuildError>)
      modifies this`adapters
      ensures err.None? <==>
        sourceId in sources && processorId in nodes && eventType in nodes[processorId].inputTypes
      ensures adapters == old(adapters) + if err.None? then [AdapterLink(sourceId, processorId, eventType)] else []
      ensures err.Some? && sourceId !in sources ==> err.value == NotFound(sourceId)
      ensures err.Some? && sourceId in sources ==>
        err.value == if processorId !in nodes then NotFound(processorId) else NotAccepted(processorId, eventType)
      ensures old(Typed()) ==> Typed()
    {
      if sourceId !in sources {
        return Some(NotFound(sourceId));
      }
      if processorId !in nodes {
        return Some(NotFound(processorId));
      }
      if eventType !in nodes[processorId].inputTypes {
        return Some(NotAccepted(processorId, eventType));
      }
      adapters := adapters + [AdapterLink(sourceId, processorId, eventType)];
      err := None;
    }

    method ConnectProcessorToSink(processorId: string, sinkId: string, eventType: string)
      returns (err: Option<BuildError>)
      modifies this`nodes
      ensures err.None? <==> processorId in old(nodes) && sinkId in sinkChannels
      ensures err.Some? ==> nodes == old(nodes)
      ensures err.None? ==>
        nodes == old(nodes)[processorId := WithOutput(old(nodes)[processorId], eventType, sinkChannels[sinkId])]
      ensures old(Typed()) ==> Typed()
    {
      if processorId !in nodes {
        return Some(NotFound(processorId));
      }
      if sinkId !in sinkChannels {
        return Some(NotFound(sinkId));
      }
      ListChannel(processorId, eventType, sinkChannels[sinkId]);
      err := None;
    }

    // ---------- Start ----------

    /**
     Start: sources first, then the processors, each in any order. `unopened` and `uninitialized` are those whose Open
     or Init fails; the first of them ends it, and what runs by then is left running.
     */
    method Start(unopened: set<string>, uninitialized: set<string>)
      returns (err: Option<StartError>, live: set<string>, ready: set<string>, loops: seq<LoopId>)
      ensures err.None? <==> sources.Keys !! unopened && nodes.Keys !! uninitialized
      ensures live <= sources.Keys - unopened && ready <= nodes.Keys - uninitialized && LoopsOf(loops, ready, nodes)
      ensures err.None? ==> live == sources.Keys && ready == nodes.Keys
      ensures err.Some? && err.value.NotOpened? ==>
        err.value.source in sources && err.value.source in unopened && loops == []
      ensures err.Some? && err.value.NotInitialized? ==>
        err.value.processor in nodes && err.value.processor in uninitialized && live == sources.Keys
    {
      hide LoopsOf;
      NoLoops(nodes);
      ready, loops := {}, [];
      err, live := OpenSources(unopened);
      if err.None? {
        err, ready, loops := StartProcessors(uninitialized);
      }
    }

    method OpenSources(unopened: set<string>) returns (err: Option<StartError>, live: set<string>)
      ensures err.None? <==> sources.Keys !! unopened
      ensures live <= sources.Keys - unopened && (err.None? ==> live == sources.Keys)
      ensures err.Some? ==> err.value.NotOpened? && err.value.source in sources && err.value.source in unopened
    {
      live := {};
      var todo := sources.Keys;
      while todo != {}
        invariant todo <= sources.Keys && live == sources.Keys - todo && live !! unopened
        decreases |todo|
      {
        var id :| id in todo;
        if id in unopened {
          return Some(NotOpened(id)), live;
        }
        live, todo := live + {id}, todo - {id};
      }
      err := None;
    }

    method StartProcessors(uninitialized: set<string>)
      returns (err: Option<StartError>, ready: set<string>, loops: seq<LoopId>)
      ensures err.None? <==> nodes.Keys !! uninitialized
      ensures ready <= nodes.Keys - uninitialized && LoopsOf(loops, ready, nodes)
      ensures err.None? ==> ready == nodes.Keys
      ensures err.Some? ==>
        err.value.NotInitialized? && err.value.processor in nodes && err.value.processor in uninitialized
    {
      hide LoopsOf;
      ready, loops := {}, [];
      NoLoops(nodes);
      var todo := nodes.Keys;
      while todo != {}
        invariant todo <= nodes.Keys && ready == nodes.Keys - todo && ready !! uninitialized
        invariant LoopsOf(loops, ready, nodes)
        decreases |todo|
      {
        var id :| id in todo;
        if id in uninitialized {
          return Some(NotInitialized(id)), ready, loops;
        }
        loops := StartLoops(id, ready, loops);
        ready, todo := ready + {id}, todo - {id};
      }
      err := None;
    }

    /** The loops of one processor, in any order. */
    method StartLoops(id: string, ghost ready: set<string>, before: seq<LoopId>) returns (loops: seq<LoopId>)
      requires id in nodes && id !in ready && LoopsOf(before, ready, nodes)
      ensures LoopsOf(loops, ready + {id}, nodes)
    {
      loops := before;
      var todo := nodes[id].inputChannels.Keys;
      while todo != {}
        invariant todo <= nodes[id].inputChannels.Keys
        invariant forall i, j :: 0 <= i < j < |loops| ==> loops[i] != loops[j]
        invariant forall i :: 0 <= i < |loops| ==>
          IsLoop(loops[i], nodes) && loops[i].processor in ready + {id} && loops[i] !in Left(id, todo)
        invariant forall l :: IsLoop(l, nodes) && l.processor in ready + {id} ==> l in loops || l in Left(id, todo)
        decreases |todo|
      {
        var t :| t in todo;
        assert LoopId(id, t) in Left(id, todo) && IsLoop(LoopId(id, t), nodes);
        loops, todo := loops + [LoopId(id, t)], todo - {t};
      }
    }

    static function Left(id: string, todo: set<string>): set<LoopId> {
      set t | t in todo :: LoopId(id, t)
    }

    /** The network that runs with these loops: the adapters, launched at their connection, come first. */
    ghost function Assembled(capacity: nat, loops: seq<LoopId>): E.Network
      requires Typed() && LoopsOf(loops, nodes.Keys, nodes)
      reads this
    {
      E.Network(kinds, capacity, AdapterJobs(adapters, sources, nodes) + LoopJobs(loops, nodes), sinkChannels.Values)
    }

    /** Whatever was added and connected in whatever order, the started DAG is a well-formed network. */
    lemma AssembledNetworkFits(capacity: nat, loops: seq<LoopId>)
      requires Typed() && LoopsOf(loops, nodes.Keys, nodes)
      ensures var net := Assembled(capacity, loops);
              && net.WellFormed() && net.capacity == capacity && net.kinds == kinds
              && |net.jobs| == |adapters| + |loops|
              && forall c :: c in net.sinks <==> exists id :: id in sinkChannels && sinkChannels[id] == c
    {
      hide ListsOwned;
      var net := Assembled(capacity, loops);
      forall w | 0 <= w < |net.jobs| ensures net.JobFits(net.jobs[w]) {
        if w < |adapters| {
          assert adapters[w].processor in nodes && NodeTyped(kinds, nodes[adapters[w].processor]);
        } else {
          assert loops[w - |adapters|] in loops;
          assert net.jobs[w] == LoopJob(loops[w - |adapters|], nodes);
          LoopFits(net, loops[w - |adapters|]);
        }
      }
    }

    lemma LoopFits(net: E.Network, l: LoopId)
      requires Typed() && IsLoop(l, nodes) && net.kinds == kinds
      ensures net.JobFits(LoopJob(l, nodes))
    {
      var n := nodes[l.processor];
      assert NodeTyped(kinds, n);
      forall t, k | t in n.outputChannels && 0 <= k < |n.outputChannels[t]|
        ensures n.outputChannels[t][k] < |kinds| && kinds[n.outputChannels[t][k]] != E.SourceChannel
      {
        assert Writable(kinds, n.outputChannels[t]);
      }
    }

    /** In a started DAG, what is sent to a channel can be taken from it: a condition of C.ShutdownEndsIff. */
    lemma AssembledNetworkIsRead(capacity: nat, loops: seq<LoopId>)
      requires Typed() && LoopsOf(loops, nodes.Keys, nodes)
      ensures C.AllRead(Assembled(capacity, loops))
    {
      hide ListOwned;
      var net := Assembled(capacity, loops);
      forall w, t | 0 <= w < |net.jobs| && net.jobs[w].Loop? && t in net.jobs[w].outputs
        ensures C.ListRead(net, net.jobs[w].outputs[t])
      {
        var l := loops[w - |adapters|];
        assert l in loops;
        assert net.jobs[w] == LoopJob(l, nodes) && ListOwned(kinds, nodes, nodes[l.processor].outputChannels[t]);
        ListIsRead(capacity, loops, nodes[l.processor].outputChannels[t]);
      }
    }

    lemma ListIsRead(capacity: nat, loops: seq<LoopId>, channels: seq<nat>)
      requires Typed() && LoopsOf(loops, nodes.Keys, nodes) && ListOwned(kinds, nodes, channels)
      ensures C.ListRead(Assembled(capacity, loops), channels)
    {
      forall k | 0 <= k < |channels| ensures C.Drained(Assembled(capacity, loops), channels[k]) {
        if Owned(nodes, channels[k]) {
          ChannelIsRead(capacity, loops, channels[k]);
        }
      }
    }

    lemma ChannelIsRead(capacity: nat, loops: seq<LoopId>, c: nat)
      requires Typed() && LoopsOf(loops, nodes.Keys, nodes) && Owned(nodes, c)
      ensures C.Drained(Assembled(capacity, loops), c)
    {
      var q, t :| q in nodes && t in nodes[q].inputChannels && nodes[q].inputChannels[t] == c;
      assert NodeTyped(kinds, nodes[q]) && IsLoop(LoopId(q, t), nodes);
      assert LoopId(q, t) in loops;
      var i :| 0 <= i < |loops| && loops[i] == LoopId(q, t);
      var net := Assembled(capacity, loops);
      assert net.jobs[|adapters| + i] == LoopJob(loops[i], nodes);
      assert C.Reader(Assembled(capacity, loops), c);
    }
  }

  /** The adapter sends to the processor's channel for its type, if the processor has one. */
  function AdapterJob(a: AdapterLink, sources: map<string, nat>, nodes: map<string, Node>): E.Job
    requires a.source in sources && a.processor in nodes
  {
    var inputs := nodes[a.processor].inputChannels;
    E.Adapter(sources[a.source], a.eventType, if a.eventType in inputs then Some(inputs[a.eventType]) else None)
  }

  function AdapterJobs(adapters: seq<AdapterLink>, sources: map<string, nat>, nodes: map<string, Node>): seq<E.Job>
    requires AdaptersKnown(adapters, sources, nodes)
  {
    seq(|adapters|, i requires 0 <= i < |adapters| => AdapterJob(adapters[i], sources, nodes))
  }

  /** There is an input channel for the loop to read. */
  predicate IsLoop(l: LoopId, nodes: map<string, Node>) {
    l.processor in nodes && l.eventType in nodes[l.processor].inputChannels
  }

  /** One loop for every input channel of the processors named, and no other. */
  ghost predicate LoopsOf(loops: seq<LoopId>, named: set<string>, nodes: map<string, Node>) {
    && (forall i, j :: 0 <= i < j < |loops| ==> loops[i] != loops[j])
    && (forall i :: 0 <= i < |loops| ==> IsLoop(loops[i], nodes) && loops[i].processor in named)
    && forall l :: IsLoop(l, nodes) && l.processor in named ==> l in loops
  }

  lemma NoLoops(nodes: map<string, Node>)
    ensures LoopsOf([], {}, nodes)
  {
  }

  /** The loop of a processor reads its own channel and sends what the processor's lists say. */
  function LoopJob(l: LoopId, nodes: map<string, Node>): E.Job
    requires IsLoop(l, nodes)
  {
    E.Loop(nodes[l.processor].inputChannels[l.eventType], nodes[l.processor].outputChannels)
  }

  function LoopJobs(loops: seq<LoopId>, nodes: map<string, Node>): seq<E.Job>
    requires forall i :: 0 <= i < |loops| ==> IsLoop(loops[i], nodes)
  {
    seq(|loops|, i requires 0 <= i < |loops| => LoopJob(loops[i], nodes))
  }
}
