/** The lexicographic order on vectors of one length has no infinite descent. */
module Lexicographic {
  /** u is smaller than v at position k, and equal before it. */
  ghost predicate LessAt(u: seq<nat>, v: seq<nat>, k: nat) {
    |u| == |v| && k < |v| && u[k] < v[k] && forall i :: 0 <= i < k ==> u[i] == v[i]
  }

  ghost predicate Less(u: seq<nat>, v: seq<nat>) {
    exists k: nat :: LessAt(u, v, k)
  }

  ghost predicate NoGrowth(g: nat -> nat, i: nat) {
    g(i + 1) <= g(i)
  }

  ghost predicate NeverGrows(g: nat -> nat, start: nat) {
    forall i: nat :: i >= start ==> NoGrowth(g, i)
  }

  lemma {:induction false} BoundedByStart(g: nat -> nat, start: nat, i: nat)
    requires NeverGrows(g, start) && i >= start
    ensures g(i) <= g(start)
    decreases i
  {
    if i > start {
      BoundedByStart(g, start, i - 1);
      assert NoGrowth(g, i - 1);
    }
  }

  ghost predicate ConstantFrom(g: nat -> nat, from: nat) {
    forall i: nat :: i >= from ==> g(i) == g(from)
  }

  /** A sequence of naturals that never grows is constant from some point on. */
  lemma {:induction false} EventuallyConstant(g: nat -> nat, start: nat) returns (from: nat)
    requires NeverGrows(g, start)
    ensures from >= start && ConstantFrom(g, from)
    decreases g(start)
  {
    if i: nat :| i >= start && g(i) < g(start) {
      from := EventuallyConstant(g, i);
    } else {
      from := start;
      forall i: nat | i >= from ensures g(i) == g(from) {
        BoundedByStart(g, start, i);
      }
    }
  }

  function Head(v: seq<nat>): nat {
    if v == [] then 0 else v[0]
  }

  function Tail(v: seq<nat>): seq<nat> {
    if v == [] then [] else v[1..]
  }

  ghost predicate AllOfLength(f: nat -> seq<nat>, n: nat) {
    forall i: nat :: |f(i)| == n
  }

  /** When the heads agree, a descent is a descent of the tails. */
  lemma TailDescends(u: seq<nat>, v: seq<nat>)
    requires Less(u, v) && Head(u) == Head(v) && u != [] && v != []
    ensures Less(Tail(u), Tail(v))
  {
    var k: nat :| LessAt(u, v, k);
    assert LessAt(Tail(u), Tail(v), k - 1);
  }

  function Heads(f: nat -> seq<nat>): nat -> nat {
    (i: nat) => Head(f(i))
  }

  function TailsFrom(f: nat -> seq<nat>, from: nat): nat -> seq<nat> {
    (i: nat) => Tail(f(from + i))
  }

  lemma TailsAreShorter(f: nat -> seq<nat>, n: nat, from: nat)
    requires n > 0 && AllOfLength(f, n)
    ensures AllOfLength(TailsFrom(f, from), n - 1)
  {
    forall i: nat ensures |TailsFrom(f, from)(i)| == n - 1 {
      var j: nat := from + i;
      assert |f(j)| == n;
      assert TailsFrom(f, from)(i) == Tail(f(j));
    }
  }

  /** Step i of f goes down. */
  ghost predicate Falls(f: nat -> seq<nat>, i: nat) {
    Less(f(i + 1), f(i))
  }

  lemma HeadsNeverGrow(f: nat -> seq<nat>, n: nat)
    requires n > 0 && AllOfLength(f, n)
    requires forall i: nat :: Falls(f, i)
    ensures NeverGrows(Heads(f), 0)
  {
    forall i: nat ensures NoGrowth(Heads(f), i) {
      assert Falls(f, i) && |f(i)| == n && |f(i + 1)| == n;
    }
  }

  /** Every infinite sequence of vectors of one length stops descending somewhere. */
  lemma {:induction false} NoInfiniteDescent(f: nat -> seq<nat>, n: nat) returns (at: nat)
    requires AllOfLength(f, n)
    ensures !Falls(f, at)
    decreases n
  {
    if n == 0 {
      at := 0;
      assert |f(0)| == 0;
    } else if i: nat :| !Falls(f, i) {
      at := i;
    } else {
      HeadsNeverGrow(f, n);
      var from := EventuallyConstant(Heads(f), 0);
      TailsAreShorter(f, n, from);
      var stop := NoInfiniteDescent(TailsFrom(f, from), n - 1);
      at := from + stop;
      TailFalls(f, n, from, stop);
    }
  }

  lemma TailFalls(f: nat -> seq<nat>, n: nat, from: nat, i: nat)
    requires n > 0 && AllOfLength(f, n) && ConstantFrom(Heads(f), from) && Falls(f, from + i)
    ensures Falls(TailsFrom(f, from), i)
  {
    var j: nat := from + i;
    assert Heads(f)(j + 1) == Heads(f)(from) == Heads(f)(j);
    assert |f(j)| == n && |f(j + 1)| == n;
    TailDescends(f(j + 1), f(j));
    assert TailsFrom(f, from)(i + 1) == Tail(f(j + 1)) && TailsFrom(f, from)(i) == Tail(f(j));
  }
}
