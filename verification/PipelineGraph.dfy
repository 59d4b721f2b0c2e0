/** buildPipelineGraph: from a pipeline's Inputs and OutputEventTypes to a connected DAG. */
module PipelineGraph {
  import opened DagBuild

  datatype Component = Component(id: string, inputs: seq<string>, outputTypes: seq<string>)

  datatype Pipeline = Pipeline(sources: seq<Component>, processors: seq<Component>, sinks: seq<Component>)

  // ---------- What the pipeline implies ----------

  /** One connection that Inputs and OutputEventTypes ask for. */
  datatype Link =
    | FromSource(source: string, processor: string, eventType: string)
    | Between(from: string, to: string, eventType: string)
    | ToSink(from: string, sink: string, eventType: string)

  predicate DistinctIds(cs: seq<Component>) {
    forall i, j :: 0 <= i < j < |cs| ==> cs[i].id != cs[j].id
  }

  predicate Has(cs: seq<Component>, id: string) {
    exists i :: 0 <= i < |cs| && cs[i].id == id
  }

  /** The output types of all components of this name, in order: with distinct ids, of the one component. */
  function TypesOf(cs: seq<Component>, id: string): seq<string> {
    if cs == [] then []
    else
      var last := cs[|cs| - 1];
      TypesOf(cs[..|cs| - 1], id) + if last.id == id then last.outputTypes else []
  }

  function InputTypesUpTo(p: Pipeline, inputs: seq<string>): seq<string> {
    if inputs == [] then []
    else
      var last := inputs[|inputs| - 1];
      InputTypesUpTo(p, inputs[..|inputs| - 1]) + TypesOf(p.sources, last) + TypesOf(p.processors, last)
  }

  /**
   The links of the types in `types` from input `input` to processor `to`. A name that is a source is only a source.
   */
  function TypeLinks(p: Pipeline, input: string, to: string, types: seq<string>): seq<Link> {
    if types == [] then []
    else
      var t := types[|types| - 1];
      TypeLinks(p, input, to, types[..|types| - 1])
      + if Has(p.sources, input) then [FromSource(input, to, t)] else [Between(input, to, t)]
  }

  function InputTypes(p: Pipeline, input: string): seq<string> {
    if Has(p.sources, input) then TypesOf(p.sources, input) else TypesOf(p.processors, input)
  }

  function InputLinks(p: Pipeline, to: string, inputs: seq<string>): seq<Link> {
    if inputs == [] then []
    else
      var last := inputs[|inputs| - 1];
      InputLinks(p, to, inputs[..|inputs| - 1]) + TypeLinks(p, last, to, InputTypes(p, last))
  }

  function ProcessorLinks(p: Pipeline, processors: seq<Component>): seq<Link> {
    if processors == [] then []
    else
      var last := processors[|processors| - 1];
      ProcessorLinks(p, processors[..|processors| - 1]) + InputLinks(p, last.id, last.inputs)
  }

  function SinkTypeLinks(from: string, sink: string, types: seq<string>): seq<Link> {
    if types == [] then []
    else SinkTypeLinks(from, sink, types[..|types| - 1]) + [ToSink(from, sink, types[|types| - 1])]
  }

  function SinkInputLinks(p: Pipeline, sink: string, inputs: seq<string>): seq<Link> {
    if inputs == [] then []
    else
      var last := inputs[|inputs| - 1];
      SinkInputLinks(p, sink, inputs[..|inputs| - 1]) + SinkTypeLinks(last, sink, TypesOf(p.processors, last))
  }

  function SinkLinks(p: Pipeline, sinks: seq<Component>): seq<Link> {
    if sinks == [] then []
    else
      var last := sinks[|sinks| - 1];
      SinkLinks(p, sinks[..|sinks| - 1]) + SinkInputLinks(p, last.id, last.inputs)
  }

  /** All links, in the order they are made. */
  function Links(p: Pipeline): seq<Link> {
    ProcessorLinks(p, p.processors) + SinkLinks(p, p.sinks)
  }

  // ---------- How often a link is made ----------

  /** How many times x occurs in s. */
  function Times<T(==)>(x: T, s: seq<T>): nat {
    if s == [] then 0 else Times(x, s[..|s| - 1]) + if s[|s| - 1] == x then 1 else 0
  }

  lemma {:induction false} TimesIsMultiplicity<T>(x: T, s: seq<T>)
    ensures Times(x, s) == multiset(s)[x]
  {
    if s != [] {
      TimesIsMultiplicity(x, s[..|s| - 1]);
      assert s == s[..|s| - 1] + [s[|s| - 1]];
    }
  }

  lemma {:induction false} TimesConcat<T>(x: T, a: seq<T>, b: seq<T>)
    ensures Times(x, a + b) == Times(x, a) + Times(x, b)
  {
    if b == [] {
      assert a + b == a;
    } else {
      var init, last := b[..|b| - 1], b[|b| - 1];
      TimesConcat(x, a, init);
      assert (a + b)[..|a + b| - 1] == a + init && (a + b)[|a + b| - 1] == last;
    }
  }

  lemma TimesOfNothing<T>(x: T)
    ensures Times(x, []) == 0
  {
  }

  lemma TimesSnoc<T>(x: T, s: seq<T>, y: T)
    ensures Times(x, s + [y]) == Times(x, s) + if x == y then 1 else 0
  {
    assert (s + [y])[..|s|] == s;
  }

  lemma ProcessorInput(p: Pipeline, f: string)
    ensures !Has(p.sources, f) ==> InputTypes(p, f) == TypesOf(p.processors, f)
  {
  }

  lemma OneMore(a: nat, n: nat)
    ensures (a + 1) * n == a * n + n
  {
  }

  lemma LastIsNew(cs: seq<Component>)
    requires DistinctIds(cs) && cs != []
    ensures !Has(cs[..|cs| - 1], cs[|cs| - 1].id) && DistinctIds(cs[..|cs| - 1])
  {
  }

  lemma {:induction false} TypeLinkTimes(p: Pipeline, input: string, to: string, types: seq<string>, f: string,
      q: string, t: string)
    ensures Times(Between(f, q, t), TypeLinks(p, input, to, types)) ==
            if input == f && to == q && !Has(p.sources, f) then Times(t, types) else 0
  {
    if types != [] {
      var init := types[..|types| - 1];
      TypeLinkTimes(p, input, to, init, f, q, t);
      TimesConcat(Between(f, q, t), TypeLinks(p, input, to, init),
                  if Has(p.sources, input) then [FromSource(input, to, types[|init|])]
                  else [Between(input, to, types[|init|])]);
    }
  }

  lemma {:induction false} TypeAdapterTimes(p: Pipeline, input: string, to: string, types: seq<string>, s: string,
      q: string, t: string)
    ensures Times(FromSource(s, q, t), TypeLinks(p, input, to, types)) ==
            if input == s && to == q && Has(p.sources, s) then Times(t, types) else 0
  {
    if types != [] {
      var init := types[..|types| - 1];
      TypeAdapterTimes(p, input, to, init, s, q, t);
      TimesConcat(FromSource(s, q, t), TypeLinks(p, input, to, init),
                  if Has(p.sources, input) then [FromSource(input, to, types[|init|])]
                  else [Between(input, to, types[|init|])]);
    }
  }

  lemma {:induction false} InputAdapterTimes(p: Pipeline, to: string, inputs: seq<string>, s: string, q: string,
      t: string)
    ensures Times(FromSource(s, q, t), InputLinks(p, to, inputs)) ==
            if to == q && Has(p.sources, s) then Times(s, inputs) * Times(t, TypesOf(p.sources, s)) else 0
  {
    hide TypeLinks, TypesOf, Has, InputTypes;
    if inputs != [] {
      var init, last := inputs[..|inputs| - 1], inputs[|inputs| - 1];
      InputAdapterTimes(p, to, init, s, q, t);
      SourceInput(p, s);
      TypeAdapterTimes(p, last, to, InputTypes(p, last), s, q, t);
      TimesConcat(FromSource(s, q, t), InputLinks(p, to, init), TypeLinks(p, last, to, InputTypes(p, last)));
      OneMore(Times(s, init), Times(t, TypesOf(p.sources, s)));
    }
  }

  lemma SourceInput(p: Pipeline, s: string)
    ensures Has(p.sources, s) ==> InputTypes(p, s) == TypesOf(p.sources, s)
  {
  }

  /** A source is adapted for a processor's type as often as Inputs and OutputEventTypes together repeat it. */
  lemma {:induction false} AdapterLinkTimes(p: Pipeline, processors: seq<Component>, k: nat, s: string, t: string)
    requires DistinctIds(processors) && k < |processors|
    ensures Times(FromSource(s, processors[k].id, t), ProcessorLinks(p, processors)) ==
            if Has(p.sources, s) then Times(s, processors[k].inputs) * Times(t, TypesOf(p.sources, s)) else 0
    decreases |processors|
  {
    hide InputLinks, TypesOf, Has;
    var init, last := processors[..|processors| - 1], processors[|processors| - 1];
    TimesConcat(FromSource(s, processors[k].id, t), ProcessorLinks(p, init), InputLinks(p, last.id, last.inputs));
    InputAdapterTimes(p, last.id, last.inputs, s, processors[k].id, t);
    if k < |init| {
      AdapterLinkTimes(p, init, k, s, t);
    } else {
      LastIsNew(processors);
      NoAdapterTo(p, init, s, last.id, t);
    }
  }

  lemma {:induction false} NoAdapterTo(p: Pipeline, processors: seq<Component>, s: string, q: string, t: string)
    requires !Has(processors, q)
    ensures Times(FromSource(s, q, t), ProcessorLinks(p, processors)) == 0
  {
    if processors != [] {
      var init, last := processors[..|processors| - 1], processors[|processors| - 1];
      assert forall i :: 0 <= i < |init| ==> init[i] == processors[i];
      NoAdapterTo(p, init, s, q, t);
      TimesConcat(FromSource(s, q, t), ProcessorLinks(p, init), InputLinks(p, last.id, last.inputs));
      InputAdapterTimes(p, last.id, last.inputs, s, q, t);
    }
  }

  /** Each link from a source launches one adapter, and nothing else does. */
  lemma {:induction false} AdapterTimes(links: seq<Link>, s: string, q: string, t: string)
    ensures Times(AdapterLink(s, q, t), AdaptersOf(links)) == Times(FromSource(s, q, t), links)
  {
    if links != [] {
      var init, last := links[..|links| - 1], links[|links| - 1];
      AdapterTimes(init, s, q, t);
      if last.FromSource? {
        TimesSnoc(AdapterLink(s, q, t), AdaptersOf(init), AdapterLink(last.source, last.processor, last.eventType));
      } else {
        assert AdaptersOf(links) == AdaptersOf(init);
      }
    }
  }

  lemma {:induction false} InputLinkTimes(p: Pipeline, to: string, inputs: seq<string>, f: string, q: string, t: string)
    ensures Times(Between(f, q, t), InputLinks(p, to, inputs)) ==
            if to == q && !Has(p.sources, f) then Times(f, inputs) * Times(t, TypesOf(p.processors, f)) else 0
  {
    hide TypeLinks, TypesOf, Has, InputTypes;
    if inputs != [] {
      var init, last := inputs[..|inputs| - 1], inputs[|inputs| - 1];
      InputLinkTimes(p, to, init, f, q, t);
      ProcessorInput(p, f);
      TypeLinkTimes(p, last, to, InputTypes(p, last), f, q, t);
      TimesConcat(Between(f, q, t), InputLinks(p, to, init), TypeLinks(p, last, to, InputTypes(p, last)));
      OneMore(Times(f, init), Times(t, TypesOf(p.processors, f)));
    }
  }

  lemma {:induction false} ProcessorLinkTimes(p: Pipeline, processors: seq<Component>, k: nat, f: string, t: string)
    requires DistinctIds(processors) && k < |processors|
    ensures Times(Between(f, processors[k].id, t), ProcessorLinks(p, processors)) ==
            if Has(p.sources, f) then 0 else Times(f, processors[k].inputs) * Times(t, TypesOf(p.processors, f))
    decreases |processors|
  {
    hide InputLinks, TypesOf, Has;
    var init, last := processors[..|processors| - 1], processors[|processors| - 1];
    TimesConcat(Between(f, processors[k].id, t), ProcessorLinks(p, init), InputLinks(p, last.id, last.inputs));
    InputLinkTimes(p, last.id, last.inputs, f, processors[k].id, t);
    if k < |init| {
      ProcessorLinkTimes(p, init, k, f, t);
    } else {
      LastIsNew(processors);
      NoLinkTo(p, init, f, last.id, t);
    }
  }

  lemma {:induction false} NoLinkTo(p: Pipeline, processors: seq<Component>, f: string, q: string, t: string)
    requires !Has(processors, q)
    ensures Times(Between(f, q, t), ProcessorLinks(p, processors)) == 0
  {
    if processors != [] {
      var init, last := processors[..|processors| - 1], processors[|processors| - 1];
      assert forall i :: 0 <= i < |init| ==> init[i] == processors[i];
      NoLinkTo(p, init, f, q, t);
      TimesConcat(Between(f, q, t), ProcessorLinks(p, init), InputLinks(p, last.id, last.inputs));
      InputLinkTimes(p, last.id, last.inputs, f, q, t);
    }
  }

  lemma {:induction false} SinkTypeLinkTimes(from: string, sink: string, types: seq<string>, f: string, k: string,
      t: string)
    ensures Times(ToSink(f, k, t), SinkTypeLinks(from, sink, types)) ==
            if from == f && sink == k then Times(t, types) else 0
  {
    if types != [] {
      var init := types[..|types| - 1];
      SinkTypeLinkTimes(from, sink, init, f, k, t);
      TimesConcat(ToSink(f, k, t), SinkTypeLinks(from, sink, init), [ToSink(from, sink, types[|init|])]);
    }
  }

  lemma {:induction false} SinkInputLinkTimes(p: Pipeline, sink: string, inputs: seq<string>, f: string, k: string,
      t: string)
    ensures Times(ToSink(f, k, t), SinkInputLinks(p, sink, inputs)) ==
            if sink == k then Times(f, inputs) * Times(t, TypesOf(p.processors, f)) else 0
  {
    hide SinkTypeLinks, TypesOf, Times;
    if inputs == [] {
      TimesOfNothing(f);
      TimesOfNothing(ToSink(f, k, t));
    } else {
      var init, last := inputs[..|inputs| - 1], inputs[|inputs| - 1];
      assert inputs == init + [last];
      TimesSnoc(f, init, last);
      SinkInputLinkTimes(p, sink, init, f, k, t);
      SinkTypeLinkTimes(last, sink, TypesOf(p.processors, last), f, k, t);
      TimesConcat(ToSink(f, k, t), SinkInputLinks(p, sink, init),
        SinkTypeLinks(last, sink, TypesOf(p.processors, last)));
      OneMore(Times(f, init), Times(t, TypesOf(p.processors, f)));
    }
  }

  lemma {:induction false} SinkLinkTimes(p: Pipeline, sinks: seq<Component>, k: nat, f: string, t: string)
    requires DistinctIds(sinks) && k < |sinks|
    ensures Times(ToSink(f, sinks[k].id, t), SinkLinks(p, sinks)) ==
            Times(f, sinks[k].inputs) * Times(t, TypesOf(p.processors, f))
    decreases |sinks|
  {
    hide SinkInputLinks, TypesOf;
    var init, last := sinks[..|sinks| - 1], sinks[|sinks| - 1];
    TimesConcat(ToSink(f, sinks[k].id, t), SinkLinks(p, init), SinkInputLinks(p, last.id, last.inputs));
    SinkInputLinkTimes(p, last.id, last.inputs, f, sinks[k].id, t);
    if k < |init| {
      SinkLinkTimes(p, init, k, f, t);
    } else {
      LastIsNew(sinks);
      NoLinkToSink(p, init, f, last.id, t);
    }
  }

  lemma {:induction false} NoLinkToSink(p: Pipeline, sinks: seq<Component>, f: string, k: string, t: string)
    requires !Has(sinks, k)
    ensures Times(ToSink(f, k, t), SinkLinks(p, sinks)) == 0
  {
    if sinks != [] {
      var init, last := sinks[..|sinks| - 1], sinks[|sinks| - 1];
      assert forall i :: 0 <= i < |init| ==> init[i] == sinks[i];
      NoLinkToSink(p, init, f, k, t);
      TimesConcat(ToSink(f, k, t), SinkLinks(p, init), SinkInputLinks(p, last.id, last.inputs));
      SinkInputLinkTimes(p, last.id, last.inputs, f, k, t);
    }
  }

  // ---------- From links to channels ----------

  /** The channels made at registration: nodes without outputs, and the sinks' channels. */
  datatype Registry = Registry(nodes: map<string, Node>, sinks: map<string, nat>)

  predicate Resolves(reg: Registry, l: Link) {
    match l
    case FromSource(_, q, t) => q in reg.nodes && t in reg.nodes[q].inputChannels
    case Between(f, q, t) => f in reg.nodes && q in reg.nodes && t in reg.nodes[q].inputChannels
    case ToSink(f, k, _) => f in reg.nodes && k in reg.sinks
  }

  /** The channel a link adds to the outputs of its sender for its type. */
  function ChannelFor(reg: Registry, l: Link): nat
    requires Resolves(reg, l) && !l.FromSource?
  {
    if l.Between? then reg.nodes[l.to].inputChannels[l.eventType] else reg.sinks[l.sink]
  }

  predicate LeavesFor(l: Link, f: string, t: string) {
    !l.FromSource? && l.from == f && l.eventType == t
  }

  /** The output channels of processor f for type t after these links. */
  function ChannelsOf(reg: Registry, links: seq<Link>, f: string, t: string): seq<nat> {
    if links == [] then []
    else
      var last := links[|links| - 1];
      ChannelsOf(reg, links[..|links| - 1], f, t)
      + if LeavesFor(last, f, t) && Resolves(reg, last) then [ChannelFor(reg, last)] else []
  }

  function AdaptersOf(links: seq<Link>): seq<AdapterLink> {
    if links == [] then []
    else
      var last := links[|links| - 1];
      AdaptersOf(links[..|links| - 1])
      + if last.FromSource? then [AdapterLink(last.source, last.processor, last.eventType)] else []
  }

  /** No two inputs, no two sinks, and no input and sink share a channel. */
  predicate DistinctChannels(reg: Registry) {
    && (forall q, r, t, u ::
          (q in reg.nodes && r in reg.nodes && t in reg.nodes[q].inputChannels && u in reg.nodes[r].inputChannels
           && reg.nodes[q].inputChannels[t] == reg.nodes[r].inputChannels[u]) ==> (q == r && t == u))
    && (forall k, l :: k in reg.sinks && l in reg.sinks && reg.sinks[k] == reg.sinks[l] ==> k == l)
    && forall q, t, k :: q in reg.nodes && t in reg.nodes[q].inputChannels && k in reg.sinks ==>
         reg.nodes[q].inputChannels[t] != reg.sinks[k]
  }

  /** A channel is listed exactly as often as its link is made. */
  lemma {:induction false} ListedAsOftenAsLinked(reg: Registry, links: seq<Link>, l: Link)
    requires DistinctChannels(reg) && Resolves(reg, l) && !l.FromSource?
    requires forall i :: 0 <= i < |links| ==> Resolves(reg, links[i])
    ensures Times(ChannelFor(reg, l), ChannelsOf(reg, links, l.from, l.eventType)) == Times(l, links)
  {
    hide Times, Resolves, ChannelFor, DistinctChannels, LeavesFor;
    if links == [] {
      TimesOfNothing(l);
      TimesOfNothing(ChannelFor(reg, l));
    } else {
      var init, last := links[..|links| - 1], links[|links| - 1];
      var listed := ChannelsOf(reg, init, l.from, l.eventType);
      assert forall i :: 0 <= i < |init| ==> init[i] == links[i];
      assert links == init + [last] && listed + [] == listed;
      ListedAsOftenAsLinked(reg, init, l);
      SameChannelSameLink(reg, last, l);
      TimesSnoc(l, init, last);
      if LeavesFor(last, l.from, l.eventType) {
        LeavingIsSent(last, l.from, l.eventType);
        TimesSnoc(ChannelFor(reg, l), listed, ChannelFor(reg, last));
      }
    }
  }

  /** What is listed for a type never is the channel of another type. */
  lemma {:induction false} ListedForItsTypeOnly(reg: Registry, links: seq<Link>, f: string, t: string, q: string,
      u: string)
    requires DistinctChannels(reg) && t != u && q in reg.nodes && u in reg.nodes[q].inputChannels
    requires forall i :: 0 <= i < |links| ==> Resolves(reg, links[i])
    ensures Times(reg.nodes[q].inputChannels[u], ChannelsOf(reg, links, f, t)) == 0
  {
    hide Times;
    if links == [] {
      TimesOfNothing(reg.nodes[q].inputChannels[u]);
    } else {
      var init, last := links[..|links| - 1], links[|links| - 1];
      assert forall i :: 0 <= i < |init| ==> init[i] == links[i];
      ListedForItsTypeOnly(reg, init, f, t, q, u);
      if LeavesFor(last, f, t) {
        OtherTypeOtherChannel(reg, last, q, u);
        TimesSnoc(reg.nodes[q].inputChannels[u], ChannelsOf(reg, init, f, t), ChannelFor(reg, last));
      } else {
        assert ChannelsOf(reg, links, f, t) == ChannelsOf(reg, init, f, t);
      }
    }
  }

  lemma OtherTypeOtherChannel(reg: Registry, l: Link, q: string, u: string)
    requires DistinctChannels(reg) && Resolves(reg, l) && !l.FromSource? && l.eventType != u
    requires q in reg.nodes && u in reg.nodes[q].inputChannels
    ensures ChannelFor(reg, l) != reg.nodes[q].inputChannels[u]
  {
  }

  lemma LeavingIsSent(l: Link, f: string, t: string)
    requires LeavesFor(l, f, t)
    ensures !l.FromSource?
  {
  }

  lemma SameChannelSameLink(reg: Registry, l: Link, m: Link)
    requires DistinctChannels(reg) && Resolves(reg, l) && Resolves(reg, m) && !m.FromSource?
    ensures LeavesFor(l, m.from, m.eventType) && ChannelFor(reg, l) == ChannelFor(reg, m) <==> l == m
  {
  }

  lemma ChannelsOfSnoc(reg: Registry, links: seq<Link>, l: Link, f: string, t: string)
    ensures ChannelsOf(reg, links + [l], f, t) ==
            ChannelsOf(reg, links, f, t) + if LeavesFor(l, f, t) && Resolves(reg, l) then [ChannelFor(reg, l)] else []
    ensures AdaptersOf(links + [l]) ==
            AdaptersOf(links) + if l.FromSource? then [AdapterLink(l.source, l.processor, l.eventType)] else []
  {
    assert (links + [l])[..|links|] == links;
  }

  // ---------- Lookup by name ----------

  lemma {:induction false} TypesOfTheOne(cs: seq<Component>, i: nat)
    requires DistinctIds(cs) && i < |cs|
    ensures TypesOf(cs, cs[i].id) == cs[i].outputTypes
    decreases |cs|
  {
    var init := cs[..|cs| - 1];
    if i < |init| {
      TypesOfTheOne(init, i);
    } else {
      TypesOfNone(init, cs[i].id);
    }
  }

  lemma {:induction false} TypesOfNone(cs: seq<Component>, id: string)
    requires !Has(cs, id)
    ensures TypesOf(cs, id) == []
  {
    if cs != [] {
      assert forall i :: 0 <= i < |cs| - 1 ==> cs[..|cs| - 1][i] == cs[i];
      TypesOfNone(cs[..|cs| - 1], id);
    }
  }

  /** Whatever an input emits is among the types its processor accepts. */
  lemma {:induction false} InputsAreAccepted(p: Pipeline, inputs: seq<string>, input: string, t: string)
    requires input in inputs && t in InputTypes(p, input)
    ensures t in InputTypesUpTo(p, inputs)
  {
    hide TypesOf, Has;
    var init, last := inputs[..|inputs| - 1], inputs[|inputs| - 1];
    if input != last {
      assert inputs == init + [last];
      InputsAreAccepted(p, init, input, t);
    }
  }

  /** A processor accepts exactly the types that some component among its inputs, source or processor, emits. */
  lemma {:induction false} AcceptedTypesAre(p: Pipeline, inputs: seq<string>, t: string)
    ensures t in InputTypesUpTo(p, inputs) <==>
      exists i :: 0 <= i < |inputs| && (t in TypesOf(p.sources, inputs[i]) || t in TypesOf(p.processors, inputs[i]))
  {
    hide TypesOf;
    if inputs != [] {
      var init, last := inputs[..|inputs| - 1], inputs[|inputs| - 1];
      AcceptedTypesAre(p, init, t);
      assert forall i :: 0 <= i < |init| ==> init[i] == inputs[i];
      if t in InputTypesUpTo(p, init) {
        var i :| 0 <= i < |init| && (t in TypesOf(p.sources, init[i]) || t in TypesOf(p.processors, init[i]));
        assert inputs[i] == init[i];
      }
    }
  }
}
