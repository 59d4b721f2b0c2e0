/**
 Starting a pipeline's components, listed with the ids they depend on; unknown ids and repeated components are passed
 over.
 */
module PipelineStart {
  import opened DependencyOrder
  import opened Wrappers
  import opened SandboxStart

  datatype Component = Component(id: string, dependsOn: seq<string>)

  /** The first component with the id, or the length if there is none. */
  function FirstOf(cs: seq<Component>, id: string): (k: nat)
    ensures k <= |cs| && (k < |cs| ==> cs[k].id == id)
  {
    if cs == [] || cs[0].id == id then 0 else 1 + FirstOf(cs[1..], id)
  }

  predicate Known(cs: seq<Component>, id: string) {
    FirstOf(cs, id) < |cs|
  }

  /** The dependencies that are components of the pipeline. */
  function KnownOf(cs: seq<Component>, ids: seq<string>): seq<string> {
    if ids == [] then []
    else KnownOf(cs, ids[..|ids| - 1]) + if Known(cs, ids[|ids| - 1]) then [ids[|ids| - 1]] else []
  }

  /** Each id depends on what its first component names. */
  function GraphOf(cs: seq<Component>): Graph {
    map k | 0 <= k < |cs| && FirstOf(cs, cs[k].id) == k :: cs[k].id := KnownOf(cs, cs[k].dependsOn)
  }

  lemma {:induction false} FirstOfFacts(cs: seq<Component>, id: string)
    ensures forall j :: 0 <= j < FirstOf(cs, id) ==> cs[j].id != id
    decreases |cs|
  {
    if cs != [] && cs[0].id != id {
      FirstOfFacts(cs[1..], id);
      assert forall j :: 0 < j < |cs| ==> cs[j] == cs[1..][j - 1];
    }
  }

  lemma FirstOfIs(cs: seq<Component>, k: nat)
    requires k < |cs| && forall j :: 0 <= j < k ==> cs[j].id != cs[k].id
    ensures FirstOf(cs, cs[k].id) == k
  {
    FirstOfFacts(cs, cs[k].id);
  }

  lemma KnownIff(cs: seq<Component>, id: string)
    ensures Known(cs, id) <==> exists j :: 0 <= j < |cs| && cs[j].id == id
  {
    FirstOfFacts(cs, id);
  }

  lemma DepsOfFirst(cs: seq<Component>, k: nat)
    requires k < |cs| && FirstOf(cs, cs[k].id) == k
    ensures Deps(GraphOf(cs), cs[k].id) == KnownOf(cs, cs[k].dependsOn)
  {
  }

  lemma KnownOfNone(cs: seq<Component>)
    ensures KnownOf(cs, []) == []
  {
  }

  lemma KnownOfNext(cs: seq<Component>, ids: seq<string>, i: nat)
    requires i < |ids|
    ensures KnownOf(cs, ids[..i + 1]) == KnownOf(cs, ids[..i]) + if Known(cs, ids[i]) then [ids[i]] else []
  {
    assert ids[..i + 1][..i] == ids[..i];
  }

  lemma {:induction false} KnownOfPrefix(cs: seq<Component>, ids: seq<string>, i: nat)
    requires i <= |ids|
    ensures KnownOf(cs, ids[..i]) <= KnownOf(cs, ids)
    decreases |ids|
  {
    if i < |ids| {
      assert ids[..|ids| - 1][..i] == ids[..i];
      KnownOfPrefix(cs, ids[..|ids| - 1], i);
    } else {
      assert ids[..i] == ids;
    }
  }

  // ---------- What the order says about the components ----------

  /** Some component has the id. */
  predicate Lists(cs: seq<Component>, id: string) {
    exists k :: 0 <= k < |cs| && cs[k].id == id
  }

  /** No component before this one has its id. */
  predicate IsFirst(cs: seq<Component>, k: nat)
    requires k < |cs|
  {
    forall j :: 0 <= j < k ==> cs[j].id != cs[k].id
  }

  /** Of the component's dependencies, those that are components at all are among the ids. */
  predicate DependenciesIn(cs: seq<Component>, k: nat, ids: seq<string>)
    requires k < |cs|
  {
    forall d :: d in cs[k].dependsOn && Lists(cs, d) ==> d in ids
  }

  /** Components are started only after what the first component of their id depends on. */
  ghost predicate StartedInOrder(cs: seq<Component>, order: seq<string>) {
    forall i, k :: 0 <= i < |order| && 0 <= k < |cs| && cs[k].id == order[i] && IsFirst(cs, k) ==>
      DependenciesIn(cs, k, order[..i])
  }

  lemma {:induction false} KnownOfHas(cs: seq<Component>, ids: seq<string>, d: string)
    ensures d in KnownOf(cs, ids) <==> d in ids && Lists(cs, d)
  {
    KnownIff(cs, d);
    if ids != [] {
      KnownOfHas(cs, ids[..|ids| - 1], d);
    }
  }

  lemma DependenciesAre(cs: seq<Component>, k: nat, ids: seq<string>)
    requires k < |cs| && IsFirst(cs, k)
    ensures DepsIn(GraphOf(cs), cs[k].id, ids) <==> DependenciesIn(cs, k, ids)
  {
    hide KnownOf, FirstOf;
    FirstOfIs(cs, k);
    FirstIsKey(cs, k);
    DepsOfFirst(cs, k);
    forall d ensures d in KnownOf(cs, cs[k].dependsOn) <==> d in cs[k].dependsOn && Lists(cs, d) {
      KnownOfHas(cs, cs[k].dependsOn, d);
    }
  }

  lemma OrderIs(cs: seq<Component>, order: seq<string>)
    requires InOrder(GraphOf(cs), order)
    ensures StartedInOrder(cs, order)
  {
    hide GraphOf, DepsIn, DependenciesIn, IsFirst;
    forall i, k | 0 <= i < |order| && 0 <= k < |cs| && cs[k].id == order[i] && IsFirst(cs, k)
      ensures DependenciesIn(cs, k, order[..i])
    {
      DependenciesAre(cs, k, order[..i]);
    }
  }

  lemma KeysAreListed(cs: seq<Component>, names: set<string>, rank: map<string, nat>)
    requires Ranked(GraphOf(cs), names, rank) && GraphOf(cs).Keys <= names
    ensures forall id :: id in GraphOf(cs) ==> Lists(cs, id)
    ensures Ranked(GraphOf(cs), GraphOf(cs).Keys, rank)
  {
    forall id, d | id in GraphOf(cs) && d in GraphOf(cs)[id] ensures d in GraphOf(cs) {
      var k :| 0 <= k < |cs| && FirstOf(cs, cs[k].id) == k && cs[k].id == id;
      KnownOfHas(cs, cs[k].dependsOn, d);
      var m :| 0 <= m < |cs| && cs[m].id == d;
      FirstIsKey(cs, m);
    }
  }

  /** What the search for some components leaves, said of the components. */
  lemma OrderSays(cs: seq<Component>, broken: set<string>, roots: seq<string>, depth: nat,
      names: set<string>, rank: map<string, nat>)
    requires Ranked(GraphOf(cs), names, rank) && GraphOf(cs).Keys <= names && Within(roots, GraphOf(cs).Keys)
    requires !VisitAll(GraphOf(cs), broken, roots, [], depth).TooDeep?
    ensures var o := VisitAll(GraphOf(cs), broken, roots, [], depth);
            && Distinct(o.order) && StartedInOrder(cs, o.order)
            && (forall i :: 0 <= i < |o.order| ==> Lists(cs, o.order[i]) && o.order[i] !in broken)
            && (o.Failed? ==>
                  && o.culprit in broken
                  && forall k :: 0 <= k < |cs| && cs[k].id == o.culprit && IsFirst(cs, k) ==>
                       DependenciesIn(cs, k, o.order))
  {
    hide GraphOf, VisitAll, InOrder, Distinct, DepsIn, StartedInOrder, IsFirst, DependenciesIn, Ranked, Lists;
    var g := GraphOf(cs);
    var o := VisitAll(g, broken, roots, [], depth);
    KeysAreListed(cs, names, rank);
    StartsEverythingOnce(g, broken, roots, depth);
    RankedNames(g, rank);
    var bound := RankBound(roots, g.Keys, rank);
    VisitAllAddsOnce(g, broken, roots, [], depth, g.Keys, rank, bound);
    assert o.order[0..] == o.order;
    OrderIs(cs, o.order);
    if o.Failed? {
      forall k | 0 <= k < |cs| && cs[k].id == o.culprit && IsFirst(cs, k) ensures DependenciesIn(cs, k, o.order) {
        DependenciesAre(cs, k, o.order);
      }
    }
  }

  lemma RankedNames(g: Graph, rank: map<string, nat>)
    requires Ranked(g, g.Keys, rank)
    ensures g.Keys <= rank.Keys
  {
  }

  class PipelineRunner {
    const components: seq<Component>
    /** The components that the orchestrator fails to start. */
    const broken: set<string>
    var started: set<string>
    ghost var order: seq<string>

    ghost predicate Valid()
      reads this
    {
      started == set n | n in order
    }

    constructor (components: seq<Component>, broken: set<string>)
      ensures this.components == components && this.broken == broken && order == [] && Valid()
    {
      this.components, this.broken, started, order := components, broken, {}, [];
    }

    /** The dependencies named so far are started; of a repeated component only the first occurrence is. */
    method StartPipeline(k: nat, ghost depth: nat) returns (err: Option<string>)
      requires k < |components| && (FirstOf(components, components[k].id) == k || components[k].id in started)
      requires Valid() && !Visit(GraphOf(components), broken, components[k].id, order, depth).TooDeep?
      modifies this
      ensures Valid() && Ended(order, err) == Visit(GraphOf(components), broken, components[k].id, old(order), depth)
      decreases depth, 1
    {
      hide GraphOf, KnownOf, FirstOf, VisitAll;
      var pipeline := components[k];
      if pipeline.id in started {
        return None;
      }
      DepsOfFirst(components, k);
      var deps, i := pipeline.dependsOn, 0;
      KnownOfNone(components);
      VisitNone(GraphOf(components), broken, order, depth - 1);
      assert deps[..0] == [];
      while i < |deps|
        invariant 0 <= i <= |deps| && Valid()
        invariant VisitAll(GraphOf(components), broken, KnownOf(components, deps[..i]), old(order), depth - 1) ==
                  Done(order)
      {
        KnownOfNext(components, deps, i);
        assert KnownOf(components, deps[..i]) + [] == KnownOf(components, deps[..i]);
        KnownOfPrefix(components, deps, i + 1);
        PrefixOfVisits(KnownOf(components, deps[..i + 1]), KnownOf(components, deps), old(order), depth - 1);
        VisitOneMore(GraphOf(components), broken, KnownOf(components, deps[..i]), deps[i], old(order), depth - 1);
        err := StartDependency(deps[i], depth - 1);
        if err.Some? {
          return;
        }
        i := i + 1;
      }
      assert deps[..|deps|] == deps;
      if pipeline.id in broken {
        return Some(pipeline.id);
      }
      started := started + {pipeline.id};
      order := order + [pipeline.id];
      err := None;
    }

    lemma PrefixOfVisits(a: seq<string>, b: seq<string>, before: seq<string>, depth: nat)
      requires a <= b
      ensures var o := VisitAll(GraphOf(components), broken, a, before, depth);
              !o.Done? ==> VisitAll(GraphOf(components), broken, b, before, depth) == o
    {
      assert b[..|a|] == a;
      PrefixDecides(GraphOf(components), broken, b, before, depth, |a|);
    }

    /** The search through the list for one dependency. */
    method StartDependency(dep: string, ghost depth: nat) returns (err: Option<string>)
      requires Valid() && (Known(components, dep) ==> !Visit(GraphOf(components), broken, dep, order, depth).TooDeep?)
      modifies this
      ensures Valid()
      ensures Ended(order, err) ==
              if Known(components, dep) then Visit(GraphOf(components), broken, dep, old(order), depth)
              else Done(old(order))
      decreases depth, 2
    {
      var j := 0;
      KnownIff(components, dep);
      ghost var found := false;
      while j < |components|
        invariant 0 <= j <= |components| && Valid()
        invariant found <==> exists i :: 0 <= i < j && components[i].id == dep
        invariant if found
                  then dep in started && Done(order) == Visit(GraphOf(components), broken, dep, old(order), depth)
                  else order == old(order)
      {
        if components[j].id == dep && components[j].id !in started {
          FirstOfIs(components, j);
          err := StartPipeline(j, depth);
          if err.Some? {
            return;
          }
          VisitDoneHas(GraphOf(components), broken, dep, old(order), depth);
        }
        found := found || components[j].id == dep;
        j := j + 1;
      }
      err := None;
    }

    /** Every component in turn. */
    method StartComponents(ghost names: set<string>, ghost rank: map<string, nat>) returns (err: Option<string>)
      requires order == [] && Valid()
      requires Ranked(GraphOf(components), names, rank) && GraphOf(components).Keys <= names
      modifies this
      ensures Distinct(order) && StartedInOrder(components, order)
      ensures forall i :: 0 <= i < |order| ==> Lists(components, order[i]) && order[i] !in broken
      ensures err.None? ==> forall k :: 0 <= k < |components| ==> components[k].id in order
      ensures err.Some? ==> err.value in broken && err.value !in order
      ensures err.Some? ==>
        forall k :: 0 <= k < |components| && components[k].id == err.value && IsFirst(components, k) ==>
          DependenciesIn(components, k, order)
    {
      hide GraphOf, FirstOf, Visit, VisitAll, InOrder, Distinct, DepsIn, StartedInOrder, IsFirst, DependenciesIn;
      ghost var g := GraphOf(components);
      ghost var depth := MaxRank(names, rank);
      ghost var roots: seq<string> := [];
      var k := 0;
      VisitNone(g, broken, [], depth);
      while k < |components|
        invariant 0 <= k <= |components| && Valid() && Within(roots, g.Keys)
        invariant VisitAll(g, broken, roots, [], depth) == Done(order)
        invariant forall j :: 0 <= j < k ==> components[j].id in roots && components[j].id in order
      {
        ghost var id := components[k].id;
        FirstIsKey(components, k);
        if forall j :: 0 <= j < k ==> components[j].id != id {
          FirstOfIs(components, k);
        }
        VisitEnds(g, broken, id, order, depth, names, rank);
        VisitOneMore(g, broken, roots, id, [], depth);
        ghost var before := order;
        err := StartPipeline(k, depth);
        roots := roots + [id];
        if err.Some? {
          OrderSays(components, broken, roots, depth, names, rank);
          return;
        }
        VisitDoneHas(g, broken, id, before, depth);
        k := k + 1;
      }
      OrderSays(components, broken, roots, depth, names, rank);
      err := None;
    }
  }

  lemma FirstIsKey(cs: seq<Component>, k: nat)
    requires k < |cs|
    ensures cs[k].id in GraphOf(cs)
  {
    var j := FirstOf(cs, cs[k].id);
    FirstOfFacts(cs, cs[k].id);
    assert j < |cs| && cs[j].id == cs[k].id && FirstOf(cs, cs[j].id) == j;
  }
}
