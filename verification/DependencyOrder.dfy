/** Starting things after what they depend on, by depth-first search over a dependency graph that nothing checks. */
module DependencyOrder {
  /** What each known name depends on, in order. */
  type Graph = map<string, seq<string>>

  /** An unknown name depends on nothing. */
  function Deps(g: Graph, name: string): seq<string> {
    if name in g then g[name] else []
  }

  /** The names started so far, and the one whose start failed; or the search did not end within the given depth. */
  datatype Outcome = Done(order: seq<string>) | Failed(order: seq<string>, culprit: string) | TooDeep

  /** The search from one name; `broken` are the names that fail to start. */
  function Visit(g: Graph, broken: set<string>, name: string, order: seq<string>, depth: nat): Outcome
    decreases depth, 0
  {
    if name in order then Done(order)
    else if depth == 0 then TooDeep
    else
      var below := VisitAll(g, broken, Deps(g, name), order, depth - 1);
      if !below.Done? then below
      else if name in broken then Failed(below.order, name)
      else Done(below.order + [name])
  }

  function VisitAll(g: Graph, broken: set<string>, names: seq<string>, order: seq<string>, depth: nat): Outcome
    decreases depth, 1 + |names|
  {
    if names == [] then Done(order)
    else
      var before := VisitAll(g, broken, names[..|names| - 1], order, depth);
      if before.Done? then Visit(g, broken, names[|names| - 1], before.order, depth) else before
  }

  // ---------- Safety ----------

  /** Everything started was started after all its dependencies. */
  predicate InOrder(g: Graph, order: seq<string>) {
    forall i :: 0 <= i < |order| ==> DepsIn(g, order[i], order[..i])
  }

  predicate DepsIn(g: Graph, name: string, order: seq<string>) {
    name in g ==> forall d :: d in g[name] ==> d in order
  }

  predicate Good(g: Graph, broken: set<string>, order: seq<string>) {
    InOrder(g, order) && forall i :: 0 <= i < |order| ==> order[i] !in broken
  }

  /** What a search leaves behind, whether it ended well or by a failed start. */
  predicate Sound(g: Graph, broken: set<string>, before: seq<string>, o: Outcome) {
    && !o.TooDeep? && before <= o.order && Good(g, broken, o.order)
    && (o.Failed? ==> o.culprit in broken && DepsIn(g, o.culprit, o.order))
  }

  lemma Extended(g: Graph, broken: set<string>, order: seq<string>, name: string)
    requires Good(g, broken, order) && DepsIn(g, name, order) && name !in broken
    ensures Good(g, broken, order + [name])
  {
    var longer := order + [name];
    forall i | 0 <= i < |longer| ensures DepsIn(g, longer[i], longer[..i]) {
      if i < |order| {
        assert longer[..i] == order[..i];
      } else {
        assert longer[..i] == order;
      }
    }
  }

  /**
   Whatever fails, the names started are closed under dependencies at every point, and a search that ends well has
   started its name.
   */
  lemma {:induction false} VisitIsSound(g: Graph, broken: set<string>, name: string, order: seq<string>, depth: nat)
    requires Good(g, broken, order) && !Visit(g, broken, name, order, depth).TooDeep?
    ensures var o := Visit(g, broken, name, order, depth);
            Sound(g, broken, order, o) && (o.Done? ==> name in o.order)
    decreases depth, 0
  {
    if name !in order {
      VisitAllIsSound(g, broken, Deps(g, name), order, depth - 1);
      var below := VisitAll(g, broken, Deps(g, name), order, depth - 1);
      if below.Done? {
        assert DepsIn(g, name, below.order);
        if name !in broken {
          Extended(g, broken, below.order, name);
        }
      }
    }
  }

  lemma {:induction false} VisitAllIsSound(g: Graph, broken: set<string>, names: seq<string>,
      order: seq<string>, depth: nat)
    requires Good(g, broken, order) && !VisitAll(g, broken, names, order, depth).TooDeep?
    ensures var o := VisitAll(g, broken, names, order, depth);
            Sound(g, broken, order, o) && (o.Done? ==> forall d :: d in names ==> d in o.order)
    decreases depth, 1 + |names|
  {
    if names != [] {
      var before := VisitAll(g, broken, names[..|names| - 1], order, depth);
      VisitAllIsSound(g, broken, names[..|names| - 1], order, depth);
      if before.Done? {
        VisitIsSound(g, broken, names[|names| - 1], before.order, depth);
        assert forall d :: d in names ==> d in names[..|names| - 1] || d == names[|names| - 1];
      }
    }
  }

  // ---------- Termination ----------

  predicate Within(roots: seq<string>, names: set<string>) {
    forall r :: r in roots ==> r in names
  }

  /** Names that include what they depend on, each of higher rank than its dependencies. */
  predicate Ranked(g: Graph, names: set<string>, rank: map<string, nat>) {
    && names <= rank.Keys
    && forall n :: n in names && n in g ==> forall d :: d in g[n] ==> d in names && rank[d] < rank[n]
  }

  /** Some names around the roots can be ranked: no chain of dependencies from a root comes back to itself. */
  ghost predicate Acyclic(g: Graph, roots: seq<string>) {
    exists names, rank :: Ranked(g, names, rank) && Within(roots, names)
  }

  ghost predicate Ends(g: Graph, broken: set<string>, roots: seq<string>) {
    exists depth :: !VisitAll(g, broken, roots, [], depth).TooDeep?
  }

  predicate Below(names: seq<string>, within: set<string>, rank: map<string, nat>, bound: nat)
    requires within <= rank.Keys
  {
    forall n :: n in names ==> n in within && rank[n] < bound
  }

  lemma {:induction false} VisitEnds(g: Graph, broken: set<string>, name: string, order: seq<string>,
      depth: nat, names: set<string>, rank: map<string, nat>)
    requires Ranked(g, names, rank) && name in names && rank[name] < depth
    ensures !Visit(g, broken, name, order, depth).TooDeep?
    decreases depth, 0
  {
    if name !in order {
      VisitAllEnds(g, broken, Deps(g, name), order, depth - 1, names, rank);
    }
  }

  lemma {:induction false} VisitAllEnds(g: Graph, broken: set<string>, roots: seq<string>, order: seq<string>,
      depth: nat, names: set<string>, rank: map<string, nat>)
    requires Ranked(g, names, rank) && Below(roots, names, rank, depth)
    ensures !VisitAll(g, broken, roots, order, depth).TooDeep?
    decreases depth, 1 + |roots|
  {
    if roots != [] {
      var before := VisitAll(g, broken, roots[..|roots| - 1], order, depth);
      VisitAllEnds(g, broken, roots[..|roots| - 1], order, depth, names, rank);
      if before.Done? {
        VisitEnds(g, broken, roots[|roots| - 1], before.order, depth, names, rank);
      }
    }
  }

  lemma {:induction false} RankBound(roots: seq<string>, names: set<string>,
      rank: map<string, nat>) returns (depth: nat)
    requires names <= rank.Keys && Within(roots, names)
    ensures Below(roots, names, rank, depth)
    decreases |roots|
  {
    depth := 0;
    if roots != [] {
      var last := roots[|roots| - 1];
      var d := RankBound(roots[..|roots| - 1], names, rank);
      depth := if rank[last] < d then d else rank[last] + 1;
      assert forall r :: r in roots ==> r in roots[..|roots| - 1] || r == last;
    }
  }

  /** The first place of a name in the order. */
  function Position(order: seq<string>, name: string): (i: nat)
    requires name in order
    ensures i < |order| && order[i] == name && name !in order[..i]
  {
    if order[0] == name then 0 else 1 + Position(order[1..], name)
  }

  /** A completed order ranks its names. */
  lemma OrderRanks(g: Graph, order: seq<string>)
    requires InOrder(g, order)
    ensures Ranked(g, set n | n in order, map n | n in order :: Position(order, n))
  {
    forall n, d | n in order && d in Deps(g, n) ensures d in order && Position(order, d) < Position(order, n) {
      var i := Position(order, n);
      assert DepsIn(g, order[i], order[..i]);
      PositionBefore(order, d, i);
    }
  }

  lemma PositionBefore(order: seq<string>, d: string, i: nat)
    requires i <= |order| && d in order[..i]
    ensures d in order && Position(order, d) < i
  {
    var j := Position(order, d);
    var k :| 0 <= k < i && order[..i][k] == d;
    assert order[k] == d;
    assert forall m :: 0 <= m < j ==> order[m] == order[..j][m];
  }

  /**
   When nothing fails to start, the search ends exactly if the dependencies are acyclic; and acyclicity suffices
   whatever fails.
   */
  lemma EndsIff(g: Graph, roots: seq<string>)
    ensures Acyclic(g, roots) <==> Ends(g, {}, roots)
    ensures Acyclic(g, roots) ==> forall broken :: Ends(g, broken, roots)
  {
    if Acyclic(g, roots) {
      var names, rank :| Ranked(g, names, rank) && Within(roots, names);
      var depth := RankBound(roots, names, rank);
      forall broken ensures Ends(g, broken, roots) {
        VisitAllEnds(g, broken, roots, [], depth, names, rank);
      }
    }
    if Ends(g, {}, roots) {
      var depth :| !VisitAll(g, {}, roots, [], depth).TooDeep?;
      VisitAllIsSound(g, {}, roots, [], depth);
      var order := VisitAll(g, {}, roots, [], depth).order;
      OrderRanks(g, order);
      var names, rank := set n | n in order, map n | n in order :: Position(order, n);
      assert Ranked(g, names, rank) && Within(roots, names);
    }
  }

  // ---------- Each name once ----------

  predicate Distinct(order: seq<string>) {
    forall i, j :: 0 <= i < j < |order| ==> order[i] != order[j]
  }

  /** The names a search adds, all of them new and below the bound. */
  predicate Adds(before: seq<string>, o: Outcome, names: set<string>, rank: map<string, nat>, bound: nat)
    requires names <= rank.Keys
  {
    !o.TooDeep? ==>
      before <= o.order && Distinct(o.order) && Below(o.order[|before|..], names, rank, bound)
  }

  lemma BelowJoin(a: seq<string>, b: seq<string>, names: set<string>, rank: map<string, nat>, bound: nat, more: nat)
    requires names <= rank.Keys && Below(a, names, rank, bound) && Below(b, names, rank, more)
    ensures Below(a + b, names, rank, if bound < more then more else bound)
  {
  }

  lemma {:induction false} VisitAddsOnce(g: Graph, broken: set<string>, name: string, order: seq<string>,
      depth: nat, names: set<string>, rank: map<string, nat>)
    requires Ranked(g, names, rank) && name in names && Distinct(order)
    ensures Adds(order, Visit(g, broken, name, order, depth), names, rank, rank[name] + 1)
    decreases depth, 0
  {
    if name !in order && depth > 0 {
      VisitAllAddsOnce(g, broken, Deps(g, name), order, depth - 1, names, rank, rank[name]);
      var below := VisitAll(g, broken, Deps(g, name), order, depth - 1);
      if below.Done? && name !in broken {
        assert forall i :: |order| <= i < |below.order| ==> below.order[i] == below.order[|order|..][i - |order|];
        assert name !in below.order;
        BelowJoin(below.order[|order|..], [name], names, rank, rank[name], rank[name] + 1);
        assert (below.order + [name])[|order|..] == below.order[|order|..] + [name];
      }
    }
  }

  lemma {:induction false} VisitAllAddsOnce(g: Graph, broken: set<string>, roots: seq<string>,
      order: seq<string>, depth: nat, names: set<string>, rank: map<string, nat>, bound: nat)
    requires Ranked(g, names, rank) && Below(roots, names, rank, bound) && Distinct(order)
    ensures Adds(order, VisitAll(g, broken, roots, order, depth), names, rank, bound)
    decreases depth, 1 + |roots|
  {
    if roots != [] {
      var last, before := roots[|roots| - 1], VisitAll(g, broken, roots[..|roots| - 1], order, depth);
      VisitAllAddsOnce(g, broken, roots[..|roots| - 1], order, depth, names, rank, bound);
      if before.Done? {
        VisitAddsOnce(g, broken, last, before.order, depth, names, rank);
        var after := Visit(g, broken, last, before.order, depth);
        if !after.TooDeep? {
          BelowJoin(before.order[|order|..], after.order[|before.order|..], names, rank, bound, rank[last] + 1);
          assert after.order[|order|..] == before.order[|order|..] + after.order[|before.order|..];
        }
      }
    }
  }

  /** With acyclic dependencies every root and everything it needs is started exactly once, after all it depends on. */
  lemma StartsEverythingOnce(g: Graph, broken: set<string>, roots: seq<string>, depth: nat)
    requires Acyclic(g, roots) && !VisitAll(g, broken, roots, [], depth).TooDeep?
    ensures var o := VisitAll(g, broken, roots, [], depth);
            && Distinct(o.order) && Good(g, broken, o.order)
            && (o.Done? ==> forall r :: r in roots ==> r in o.order)
            && (o.Failed? ==> o.culprit in broken && DepsIn(g, o.culprit, o.order))
  {
    var names, rank :| Ranked(g, names, rank) && Within(roots, names);
    var bound := RankBound(roots, names, rank);
    VisitAllAddsOnce(g, broken, roots, [], depth, names, rank, bound);
    VisitAllIsSound(g, broken, roots, [], depth);
  }

  /** A search that ended once ends the same way with more room. */
  lemma {:induction false} DeeperIsSame(g: Graph, broken: set<string>, name: string, order: seq<string>,
      depth: nat, more: nat)
    requires depth <= more && !Visit(g, broken, name, order, depth).TooDeep?
    ensures Visit(g, broken, name, order, more) == Visit(g, broken, name, order, depth)
    decreases depth, 0
  {
    if name !in order {
      DeeperAllIsSame(g, broken, Deps(g, name), order, depth - 1, more - 1);
    }
  }

  lemma {:induction false} DeeperAllIsSame(g: Graph, broken: set<string>, roots: seq<string>,
      order: seq<string>, depth: nat, more: nat)
    requires depth <= more && !VisitAll(g, broken, roots, order, depth).TooDeep?
    ensures VisitAll(g, broken, roots, order, more) == VisitAll(g, broken, roots, order, depth)
    decreases depth, 1 + |roots|
  {
    if roots != [] {
      var before := VisitAll(g, broken, roots[..|roots| - 1], order, depth);
      DeeperAllIsSame(g, broken, roots[..|roots| - 1], order, depth, more);
      if before.Done? {
        DeeperIsSame(g, broken, roots[|roots| - 1], before.order, depth, more);
      }
    }
  }

  /** A service that depends on itself: no depth suffices, whatever would have failed to start. */
  lemma SelfDependencyNeverEnds(broken: set<string>, depth: nat)
    ensures VisitAll(map["a" := ["a"]], broken, ["a"], [], depth).TooDeep?
  {
    var g: Graph := map["a" := ["a"]];
    assert Deps(g, "a") == ["a"] && ["a"][..0] == [];
    if depth > 0 {
      SelfDependencyNeverEnds(broken, depth - 1);
    }
  }

  /** An unfinished or failed beginning decides the whole. */
  lemma {:induction false} PrefixDecides(g: Graph, broken: set<string>, roots: seq<string>, order: seq<string>,
      depth: nat, i: nat)
    requires i <= |roots|
    ensures var o := VisitAll(g, broken, roots[..i], order, depth);
            !o.Done? ==> VisitAll(g, broken, roots, order, depth) == o
    decreases |roots|
  {
    if i < |roots| {
      assert roots[..|roots| - 1][..i] == roots[..i];
      PrefixDecides(g, broken, roots[..|roots| - 1], order, depth, i);
    } else {
      assert roots[..i] == roots;
    }
  }

  lemma VisitNone(g: Graph, broken: set<string>, order: seq<string>, depth: nat)
    ensures VisitAll(g, broken, [], order, depth) == Done(order)
  {
  }

  lemma VisitOneMore(g: Graph, broken: set<string>, roots: seq<string>, name: string, order: seq<string>, depth: nat)
    ensures var o := VisitAll(g, broken, roots, order, depth);
            VisitAll(g, broken, roots + [name], order, depth) ==
            if o.Done? then Visit(g, broken, name, o.order, depth) else o
  {
    assert (roots + [name])[..|roots|] == roots;
  }

  lemma {:induction false} MaxRank(names: set<string>, rank: map<string, nat>) returns (bound: nat)
    requires names <= rank.Keys
    ensures forall n :: n in names ==> rank[n] < bound
    decreases |names|
  {
    bound := 0;
    if names != {} {
      var n :| n in names;
      var b := MaxRank(names - {n}, rank);
      bound := if rank[n] < b then b else rank[n] + 1;
    }
  }

  /** A search that ends well only adds to the order, and has its name in it. */
  lemma {:induction false} VisitDoneHas(g: Graph, broken: set<string>, name: string, order: seq<string>, depth: nat)
    ensures var o := Visit(g, broken, name, order, depth);
            o.Done? ==> name in o.order && order <= o.order
    decreases depth, 0
  {
    if name !in order && depth > 0 {
      VisitAllGrows(g, broken, Deps(g, name), order, depth - 1);
    }
  }

  lemma {:induction false} VisitAllGrows(g: Graph, broken: set<string>, roots: seq<string>, order: seq<string>,
      depth: nat)
    ensures var o := VisitAll(g, broken, roots, order, depth); o.Done? ==> order <= o.order
    decreases depth, 1 + |roots|
  {
    if roots != [] {
      var before := VisitAll(g, broken, roots[..|roots| - 1], order, depth);
      VisitAllGrows(g, broken, roots[..|roots| - 1], order, depth);
      if before.Done? {
        VisitDoneHas(g, broken, roots[|roots| - 1], before.order, depth);
      }
    }
  }
}
