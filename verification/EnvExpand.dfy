/** The loop that expands references in environment values by rewriting the first one until none is left. */
module EnvExpand {
  import opened Wrappers

  // ---------- The loop, on strings ----------

  /** Variables of the pipeline and of the operating system. */
  datatype Env = Env(vars: map<string, string>, os: map<string, string>)

  function Lookup(env: Env, name: string): string {
    if name in env.vars then env.vars[name] else if name in env.os then env.os[name] else ""
  }

  /** The first place of a text in another. */
  function Find(s: string, sub: string): (i: Option<nat>)
    ensures i.Some? ==> i.value + |sub| <= |s| && s[i.value..i.value + |sub|] == sub
  {
    if |sub| <= |s| && s[..|sub|] == sub then Some(0)
    else if s == "" then None
    else Shifted(Find(s[1..], sub), 1)
  }

  function Shifted(i: Option<nat>, offset: nat): Option<nat> {
    if i.None? then None else Some(i.value + offset)
  }

  const OPEN := "${"
  const CLOSE := "}"

  /** One turn of the loop: the first reference replaced by its value; None where the loop stops. */
  function Turn(env: Env, s: string): Option<string> {
    match Find(s, OPEN)
    case None => None
    case Some(start) =>
      match Find(s[start..], CLOSE)
      case None => None
      case Some(end) =>
        assert s[start..start + 2][0] == '$' && s[start..start + 2][1] == '{' && s[start..][end..end + 1][0] == '}';
        Some(s[..start] + Lookup(env, s[start + 2..start + end]) + s[start + end + 1..])
  }

  /** The text after n turns, if the loop gets that far. */
  function After(env: Env, s: string, n: nat): Option<string>
    decreases n
  {
    if n == 0 then Some(s)
    else match Turn(env, s)
         case None => None
         case Some(u) => After(env, u, n - 1)
  }

  /** After exactly n turns the loop stops, with the result r. */
  predicate StopsWith(env: Env, s: string, n: nat, r: string) {
    After(env, s, n) == Some(r) && Turn(env, r) == None
  }

  ghost predicate Halts(env: Env, s: string) {
    exists n, r :: StopsWith(env, s, n, r)
  }

  // ---------- Templates ----------

  datatype Piece = Plain(c: char) | Ref(name: string)

  type Template = seq<Piece>

  /** Plain characters other than the dollar sign, and references whose names do not close the brace. */
  predicate Wellformed(t: Template) {
    forall i :: 0 <= i < |t| ==> PieceFits(t[i])
  }

  predicate PieceFits(p: Piece) {
    if p.Plain? then p.c != '$' else '}' !in p.name
  }

  function Spelled(p: Piece): string {
    if p.Plain? then [p.c] else OPEN + p.name + CLOSE
  }

  function Render(t: Template): string {
    if t == [] then "" else Spelled(t[0]) + Render(t[1..])
  }

  datatype Definitions = Definitions(vars: map<string, Template>, os: map<string, Template>)

  predicate AllWellformed(d: Definitions) {
    && (forall n :: n in d.vars ==> Wellformed(d.vars[n]))
    && (forall n :: n in d.os ==> Wellformed(d.os[n]))
  }

  function Strings(d: Definitions): Env {
    Env(map n | n in d.vars :: Render(d.vars[n]), map n | n in d.os :: Render(d.os[n]))
  }

  function Look(d: Definitions, name: string): Template {
    if name in d.vars then d.vars[name] else if name in d.os then d.os[name] else []
  }

  // ---------- Recursive expansion ----------

  /** No chain of references from the template is longer than f. */
  predicate Bounded(d: Definitions, t: Template, f: nat)
    decreases f, |t|
  {
    t == [] || ((t[0].Plain? || (f > 0 && Bounded(d, Look(d, t[0].name), f - 1))) && Bounded(d, t[1..], f))
  }

  /** What the template stands for: each reference is what its definition stands for. */
  function Expand(d: Definitions, t: Template, f: nat): string
    requires Bounded(d, t, f)
    decreases f, |t|
  {
    if t == [] then ""
    else (if t[0].Plain? then [t[0].c] else Expand(d, Look(d, t[0].name), f - 1)) + Expand(d, t[1..], f)
  }

  /** The references of the template and of everything it unfolds to. */
  function Count(d: Definitions, t: Template, f: nat): nat
    requires Bounded(d, t, f)
    decreases f, |t|
  {
    if t == [] then 0
    else (if t[0].Plain? then 0 else 1 + Count(d, Look(d, t[0].name), f - 1)) + Count(d, t[1..], f)
  }

  ghost predicate Unfolds(d: Definitions, t: Template) {
    exists f :: Bounded(d, t, f)
  }

  lemma BoundedJoin(d: Definitions, a: Template, b: Template, f: nat)
    ensures Bounded(d, a + b, f) <==> Bounded(d, a, f) && Bounded(d, b, f)
    ensures Bounded(d, a + b, f) ==> Expand(d, a + b, f) == Expand(d, a, f) + Expand(d, b, f)
    ensures Bounded(d, a + b, f) ==> Count(d, a + b, f) == Count(d, a, f) + Count(d, b, f)
  {
    BoundedAppend(d, a, b, f);
    if Bounded(d, a + b, f) {
      MeaningJoins(d, a, b, f);
    }
  }

  lemma {:induction false} BoundedAppend(d: Definitions, a: Template, b: Template, f: nat)
    ensures Bounded(d, a + b, f) <==> Bounded(d, a, f) && Bounded(d, b, f)
    decreases |a|
  {
    if a == [] {
      assert a + b == b;
    } else {
      assert (a + b)[1..] == a[1..] + b;
      BoundedAppend(d, a[1..], b, f);
    }
  }

  lemma {:induction false} MeaningJoins(d: Definitions, a: Template, b: Template, f: nat)
    requires Bounded(d, a, f) && Bounded(d, b, f) && Bounded(d, a + b, f)
    ensures Expand(d, a + b, f) == Expand(d, a, f) + Expand(d, b, f)
    ensures Count(d, a + b, f) == Count(d, a, f) + Count(d, b, f)
    decreases |a|
  {
    if a == [] {
      assert a + b == b;
    } else {
      assert (a + b)[1..] == a[1..] + b;
      MeaningJoins(d, a[1..], b, f);
    }
  }

  lemma {:induction false} MoreDepth(d: Definitions, t: Template, f: nat, g: nat)
    requires Bounded(d, t, f) && f <= g
    ensures Bounded(d, t, g) && Expand(d, t, g) == Expand(d, t, f) && Count(d, t, g) == Count(d, t, f)
    decreases f, |t|
  {
    if t != [] {
      MoreDepth(d, t[1..], f, g);
      if t[0].Ref? {
        MoreDepth(d, Look(d, t[0].name), f - 1, g - 1);
      }
    }
  }

  // ---------- One turn on a template ----------

  /** The position of the first reference. */
  function FirstRef(t: Template): (k: nat)
    ensures k <= |t| && forall i :: 0 <= i < k ==> t[i].Plain?
    ensures k < |t| ==> t[k].Ref?
  {
    if t == [] || t[0].Ref? then 0 else 1 + FirstRef(t[1..])
  }

  function Rewritten(d: Definitions, t: Template): Template
    requires FirstRef(t) < |t|
  {
    var k := FirstRef(t);
    t[..k] + Look(d, t[k].name) + t[k + 1..]
  }

  lemma {:induction false} RenderJoin(a: Template, b: Template)
    ensures Render(a + b) == Render(a) + Render(b)
    decreases |a|
  {
    if a == [] {
      assert a + b == b;
    } else {
      assert (a + b)[1..] == a[1..] + b;
      RenderJoin(a[1..], b);
    }
  }

  lemma FindPasses(c: char, s: string, sub: string)
    requires sub != "" && sub[0] != c
    ensures Find([c] + s, sub) == Shifted(Find(s, sub), 1)
  {
    var t := [c] + s;
    assert t[1..] == s;
    assert |sub| <= |t| ==> t[..|sub|][0] == c;
  }

  lemma {:induction false} FindSkips(a: string, s: string, sub: string)
    requires sub != "" && sub[0] !in a
    ensures Find(a + s, sub) == Shifted(Find(s, sub), |a|)
    decreases |a|
  {
    hide Find;
    if a == "" {
      assert a + s == s;
    } else {
      assert a + s == [a[0]] + (a[1..] + s);
      FindPasses(a[0], a[1..] + s, sub);
      FindSkips(a[1..], s, sub);
    }
  }

  lemma {:induction false} PlainRender(t: Template)
    requires Wellformed(t) && forall i :: 0 <= i < |t| ==> t[i].Plain?
    ensures '$' !in Render(t)
    decreases |t|
  {
    if t != [] {
      PlainRender(t[1..]);
    }
  }

  lemma FindHere(s: string, sub: string)
    requires |sub| <= |s| && s[..|sub|] == sub
    ensures Find(s, sub) == Some(0)
  {
  }

  lemma CloseAfterName(name: string, tail: string)
    requires '}' !in name
    ensures Find(OPEN + name + CLOSE + tail, CLOSE) == Some(|name| + 2)
  {
    hide Find;
    assert OPEN + name + CLOSE + tail == (OPEN + name) + (CLOSE + tail);
    FindSkips(OPEN + name, CLOSE + tail, CLOSE);
    FindHere(CLOSE + tail, CLOSE);
  }

  /** A turn finds the first reference between what has no dollar sign and the rest. */
  lemma TurnAt(env: Env, before: string, name: string, tail: string)
    requires '$' !in before && '}' !in name
    ensures Turn(env, before + (OPEN + name + CLOSE + tail)) == Some(before + Lookup(env, name) + tail)
  {
    hide Find, Lookup;
    var rest := OPEN + name + CLOSE + tail;
    var s, n := before + rest, |before|;
    FindSkips(before, rest, OPEN);
    FindHere(rest, OPEN);
    CloseAfterName(name, tail);
    assert s[n..] == rest;
    assert s[n + 2..n + |name| + 2] == name && s[n + |name| + 3..] == tail && s[..n] == before;
  }

  lemma {:induction false} NoDollarNoTurn(env: Env, s: string)
    requires '$' !in s
    ensures Turn(env, s) == None
  {
    FindSkips(s, "", OPEN);
    assert s + "" == s;
  }

  lemma RenderAround(t: Template, k: nat)
    requires k < |t|
    ensures Render(t) == Render(t[..k]) + (Spelled(t[k]) + Render(t[k + 1..]))
  {
    assert t == t[..k] + t[k..] && t[k..][1..] == t[k + 1..];
    RenderJoin(t[..k], t[k..]);
  }

  /** A turn on a rendered template rewrites its first reference, and the loop stops where there is none. */
  lemma TurnRewrites(d: Definitions, t: Template)
    requires Wellformed(t)
    ensures Turn(Strings(d), Render(t)) ==
            if FirstRef(t) == |t| then None else Some(Render(Rewritten(d, t)))
  {
    hide Turn, Lookup, Look, Strings;
    var k := FirstRef(t);
    assert t[..|t|] == t;
    PlainRender(t[..k]);
    if k < |t| {
      var name := t[k].name;
      RenderAround(t, k);
      TurnAt(Strings(d), Render(t[..k]), name, Render(t[k + 1..]));
      LookRenders(d, name);
      RenderJoin(t[..k] + Look(d, name), t[k + 1..]);
      RenderJoin(t[..k], Look(d, name));
    } else {
      NoDollarNoTurn(Strings(d), Render(t));
    }
  }

  lemma LookRenders(d: Definitions, name: string)
    ensures Lookup(Strings(d), name) == Render(Look(d, name))
  {
  }

  lemma BoundedRef(d: Definitions, name: string, b: Template, f: nat)
    ensures Bounded(d, [Ref(name)] + b, f) <==> f > 0 && Bounded(d, Look(d, name), f - 1) && Bounded(d, b, f)
    ensures Bounded(d, [Ref(name)] + b, f) ==>
      && Expand(d, [Ref(name)] + b, f) == Expand(d, Look(d, name), f - 1) + Expand(d, b, f)
      && Count(d, [Ref(name)] + b, f) == 1 + Count(d, Look(d, name), f - 1) + Count(d, b, f)
  {
    assert ([Ref(name)] + b)[1..] == b;
  }

  /** Rewriting keeps what the template stands for and uses up exactly one reference. */
  lemma RewriteKeepsMeaning(d: Definitions, t: Template, f: nat)
    requires Bounded(d, t, f) && FirstRef(t) < |t|
    ensures var u := Rewritten(d, t);
            Bounded(d, u, f) && Expand(d, u, f) == Expand(d, t, f) && Count(d, u, f) == Count(d, t, f) - 1
  {
    hide Bounded, Expand, Count, Look;
    var k := FirstRef(t);
    var a, b, r := t[..k], t[k + 1..], Look(d, t[k].name);
    assert t == a + ([Ref(t[k].name)] + b);
    BoundedJoin(d, a, [Ref(t[k].name)] + b, f);
    BoundedRef(d, t[k].name, b, f);
    MoreDepth(d, r, f - 1, f);
    BoundedJoin(d, a, r, f);
    BoundedJoin(d, a + r, b, f);
  }

  lemma RewriteKeepsWellformed(d: Definitions, t: Template)
    requires AllWellformed(d) && Wellformed(t) && FirstRef(t) < |t|
    ensures Wellformed(Rewritten(d, t))
  {
    hide AllWellformed, Look, FirstRef;
    var k := FirstRef(t);
    LookIsWellformed(d, t[k].name);
    var before, middle, after := t[..k], Look(d, t[k].name), t[k + 1..];
    assert Wellformed(before) && Wellformed(after);
    forall i | 0 <= i < |before + middle + after|
      ensures PieceFits((before + middle + after)[i])
    {
      var p := (before + middle + after)[i];
      assert p == if i < k then before[i] else if i < k + |middle| then middle[i - k] else after[i - k - |middle|];
    }
  }

  lemma LookIsWellformed(d: Definitions, name: string)
    requires AllWellformed(d)
    ensures Wellformed(Look(d, name))
  {
  }

  lemma {:induction false} NoRefLeft(d: Definitions, t: Template, f: nat)
    requires FirstRef(t) == |t|
    ensures Bounded(d, t, f) && Expand(d, t, f) == Render(t) && Count(d, t, f) == 0
    decreases |t|
  {
    if t != [] {
      NoRefLeft(d, t[1..], f);
    }
  }

  // ---------- Termination and result ----------

  /**
   A template that unfolds finitely is rewritten in exactly as many turns as it unfolds to references, into its
   expansion.
   */
  lemma {:induction false} LoopComputesExpansion(d: Definitions, t: Template, f: nat)
    requires AllWellformed(d) && Wellformed(t) && Bounded(d, t, f)
    ensures StopsWith(Strings(d), Render(t), Count(d, t, f), Expand(d, t, f))
    decreases Count(d, t, f)
  {
    TurnRewrites(d, t);
    if FirstRef(t) == |t| {
      NoRefLeft(d, t, f);
    } else {
      RewriteKeepsMeaning(d, t, f);
      RewriteKeepsWellformed(d, t);
      LoopComputesExpansion(d, Rewritten(d, t), f);
    }
  }

  lemma BoundedBefore(d: Definitions, t: Template, n: nat)
    requires n > 0 && FirstRef(t) < |t| && Bounded(d, Rewritten(d, t), n - 1)
    ensures Bounded(d, t, n)
  {
    hide Bounded, Look, Expand, Count;
    var k := FirstRef(t);
    var a, b, l := t[..k], t[k + 1..], Look(d, t[k].name);
    BoundedJoin(d, a + l, b, n - 1);
    BoundedJoin(d, a, l, n - 1);
    MoreDepth(d, a, n - 1, n);
    MoreDepth(d, b, n - 1, n);
    BoundedRef(d, t[k].name, b, n);
    BoundedJoin(d, a, [Ref(t[k].name)] + b, n);
    assert t == a + ([Ref(t[k].name)] + b);
  }

  lemma {:induction false} StoppingBounds(d: Definitions, t: Template, n: nat, r: string)
    requires AllWellformed(d) && Wellformed(t) && StopsWith(Strings(d), Render(t), n, r)
    ensures Bounded(d, t, n)
    decreases n
  {
    hide Turn, Bounded, Render, Strings, Wellformed, AllWellformed;
    TurnRewrites(d, t);
    if FirstRef(t) == |t| {
      NoRefLeft(d, t, n);
    } else {
      RewriteKeepsWellformed(d, t);
      StoppingBounds(d, Rewritten(d, t), n - 1, r);
      BoundedBefore(d, t, n);
    }
  }

  /** The loop stops on a template exactly if its references unfold finitely. */
  lemma HaltsIff(d: Definitions, t: Template)
    requires AllWellformed(d) && Wellformed(t)
    ensures Halts(Strings(d), Render(t)) <==> Unfolds(d, t)
  {
    if Halts(Strings(d), Render(t)) {
      var n, r :| StopsWith(Strings(d), Render(t), n, r);
      StoppingBounds(d, t, n, r);
    }
    if Unfolds(d, t) {
      var f :| Bounded(d, t, f);
      LoopComputesExpansion(d, t, f);
    }
  }

  // ---------- Acyclic definitions ----------

  /** Every definition refers only to names of smaller rank. */
  ghost predicate Ranks(d: Definitions, rank: string -> nat) {
    forall n: string, i ::
      '}' !in n && 0 <= i < |Look(d, n)| && Look(d, n)[i].Ref? ==> rank(Look(d, n)[i].name) < rank(n)
  }

  ghost predicate Acyclic(d: Definitions) {
    exists rank :: Ranks(d, rank)
  }

  lemma {:induction false} RankBounds(d: Definitions, t: Template, f: nat, rank: string -> nat)
    requires AllWellformed(d) && Wellformed(t)
    requires Ranks(d, rank) && forall i :: 0 <= i < |t| && t[i].Ref? ==> rank(t[i].name) < f
    ensures Bounded(d, t, f)
    decreases f, |t|
  {
    if t != [] {
      RankBounds(d, t[1..], f, rank);
      if t[0].Ref? {
        RankBounds(d, Look(d, t[0].name), f - 1, rank);
      }
    }
  }

  /** A bound on the ranks of a template's references. */
  lemma {:induction false} RankAbove(t: Template, rank: string -> nat) returns (f: nat)
    ensures forall i :: 0 <= i < |t| && t[i].Ref? ==> rank(t[i].name) < f
    decreases |t|
  {
    f := 0;
    if t != [] {
      var g := RankAbove(t[1..], rank);
      f := if t[0].Ref? && rank(t[0].name) >= g then rank(t[0].name) + 1 else g;
      assert forall i :: 0 < i < |t| ==> t[i] == t[1..][i - 1];
    }
  }

  /** How many turns a name takes, if finitely many. */
  ghost function Turns(d: Definitions, name: string): nat {
    if Unfolds(d, [Ref(name)]) then
      var f :| Bounded(d, [Ref(name)], f); Count(d, [Ref(name)], f)
    else 0
  }

  lemma TurnsIs(d: Definitions, name: string, f: nat)
    requires Bounded(d, [Ref(name)], f)
    ensures Turns(d, name) == Count(d, [Ref(name)], f)
  {
    var g :| Bounded(d, [Ref(name)], g) && Turns(d, name) == Count(d, [Ref(name)], g);
    MoreDepth(d, [Ref(name)], f, f + g);
    MoreDepth(d, [Ref(name)], g, f + g);
  }

  lemma ReferredTakesFewerTurns(d: Definitions, n: string, i: nat)
    requires Unfolds(d, [Ref(n)]) && i < |Look(d, n)| && Look(d, n)[i].Ref?
    ensures Turns(d, Look(d, n)[i].name) < Turns(d, n)
  {
    var f: nat :| Bounded(d, [Ref(n)], f);
    var t := Look(d, n);
    TurnsIs(d, n, f);
    var a, b := t[..i], t[i + 1..];
    assert t == a + ([t[i]] + b);
    BoundedJoin(d, a, [t[i]] + b, f - 1);
    BoundedJoin(d, [t[i]], b, f - 1);
    assert [t[i]] == [Ref(t[i].name)];
    TurnsIs(d, t[i].name, f - 1);
  }

  ghost predicate EveryReferenceHalts(d: Definitions) {
    forall n :: '}' !in n ==> Halts(Strings(d), Render([Ref(n)]))
  }

  lemma AcyclicHalts(d: Definitions, t: Template)
    requires AllWellformed(d) && Wellformed(t) && Acyclic(d)
    ensures Halts(Strings(d), Render(t))
  {
    var rank :| Ranks(d, rank);
    var f := RankAbove(t, rank);
    RankBounds(d, t, f, rank);
    HaltsIff(d, t);
  }

  /**
   Acyclicity is exactly what the loop needs: every reference is expanded in finitely many turns iff the names can be
   ranked.
   */
  lemma AcyclicIff(d: Definitions)
    requires AllWellformed(d)
    ensures EveryReferenceHalts(d) <==> Acyclic(d)
  {
    if Acyclic(d) {
      forall n | '}' !in n ensures Halts(Strings(d), Render([Ref(n)])) {
        AcyclicHalts(d, [Ref(n)]);
      }
    }
    if EveryReferenceHalts(d) {
      var rank := n => Turns(d, n);
      forall n: string, i | '}' !in n && 0 <= i < |Look(d, n)| && Look(d, n)[i].Ref?
        ensures rank(Look(d, n)[i].name) < rank(n)
      {
        HaltsIff(d, [Ref(n)]);
        ReferredTakesFewerTurns(d, n, i);
      }
      assert Ranks(d, rank);
    }
  }

  /** A name defined as itself is never done: no number of turns reaches a text without references. */
  lemma SelfReferenceNeverEnds()
    ensures !Halts(Env(map["A" := "${A}"], map[]), "${A}")
  {
    hide Turn, StopsWith, Find;
    var env, s := Env(map["A" := "${A}"], map[]), "${A}";
    assert "" + (OPEN + "A" + CLOSE + "") == s == "" + s + "";
    TurnAt(env, "", "A", "");
    if Halts(env, s) {
      var n, r :| StopsWith(env, s, n, r);
      StuckNeverStops(env, s, n, r);
    }
  }

  lemma {:induction false} StuckNeverStops(env: Env, s: string, n: nat, r: string)
    requires Turn(env, s) == Some(s)
    ensures !StopsWith(env, s, n, r)
    decreases n
  {
    if n > 0 {
      StuckNeverStops(env, s, n - 1, r);
    }
  }

  // ---------- The loop ----------

  lemma FindNext(s: string, sub: string, k: nat)
    requires k + |sub| <= |s| && s[k..k + |sub|] != sub
    ensures k < |s| ==> Find(s[k..], sub) == Shifted(Find(s[k + 1..], sub), 1)
  {
    assert s[k..][..|sub|] == s[k..k + |sub|];
    assert k < |s| ==> s[k..][1..] == s[k + 1..];
  }

  lemma {:induction false} TooShort(s: string, sub: string)
    requires |s| < |sub|
    ensures Find(s, sub) == None
    decreases |s|
  {
    if s != "" {
      TooShort(s[1..], sub);
    }
  }

  /** strings.Index, by search from the left. */
  method Index(s: string, sub: string) returns (i: Option<nat>)
    ensures i == Find(s, sub)
  {
    hide Find;
    var k := 0;
    assert s[0..] == s;
    while k + |sub| <= |s| && s[k..k + |sub|] != sub
      invariant 0 <= k <= |s| && Find(s, sub) == Shifted(Find(s[k..], sub), k)
    {
      FindNext(s, sub, k);
      k := k + 1;
    }
    if k + |sub| <= |s| {
      assert s[k..][..|sub|] == s[k..k + |sub|];
      FindHere(s[k..], sub);
      return Some(k);
    }
    TooShort(s[k..], sub);
    i := None;
  }

  /** The body of the loop: the first reference is looked up and replaced. */
  method ReplaceFirst(expanded: string, env: Env) returns (r: Option<string>)
    ensures r == Turn(env, expanded)
  {
    var start := Index(expanded, OPEN);
    if start.None? {
      return None;
    }
    var end := Index(expanded[start.value..], CLOSE);
    if end.None? {
      return None;
    }
    assert expanded[start.value..start.value + 2][1] == '{';
    assert expanded[start.value..start.value + 2][0] == '$';
    assert expanded[start.value..][end.value..end.value + 1][0] == '}';
    var name := expanded[start.value + 2..start.value + end.value];
    var replacement := "";
    if name in env.vars {
      replacement := env.vars[name];
    } else if name in env.os {
      replacement := env.os[name];
    }
    r := Some(expanded[..start.value] + replacement + expanded[start.value + end.value + 1..]);
  }

  /** The loop stops after one number of turns and with one result. */
  lemma {:induction false} StopsOnce(env: Env, s: string, m: nat, q: string, n: nat, r: string)
    requires StopsWith(env, s, m, q) && StopsWith(env, s, n, r)
    ensures m == n && q == r
    decreases m
  {
    hide Turn;
    if m > 0 && n > 0 {
      StopsOnce(env, Turn(env, s).value, m - 1, q, n - 1, r);
    }
  }

  /** The rewriting loop of expandValue, on any text and variables on which it stops. */
  method ExpandReferences(value: string, env: Env, ghost n: nat, ghost r: string) returns (expanded: string)
    requires StopsWith(env, value, n, r)
    ensures expanded == r
  {
    expanded := value;
    ghost var left := n;
    while true
      invariant StopsWith(env, expanded, left, r)
      decreases left
    {
      var next := ReplaceFirst(expanded, env);
      if next.None? {
        break;
      }
      expanded := next.value;
      left := left - 1;
    }
  }

  /** On a template whose references unfold finitely the loop computes the recursive expansion. */
  method ExpandTemplate(value: string, env: Env, ghost t: Template, ghost d: Definitions, ghost f: nat)
    returns (expanded: string)
    requires AllWellformed(d) && Wellformed(t) && Bounded(d, t, f)
    requires env == Strings(d) && value == Render(t)
    ensures expanded == Expand(d, t, f)
  {
    LoopComputesExpansion(d, t, f);
    expanded := ExpandReferences(value, env, Count(d, t, f), Expand(d, t, f));
  }

  // ---------- A turn, character by character ----------

  /** The first "${" of the text starts at i. */
  predicate OpensAt(s: string, i: nat) {
    && i + 1 < |s| && s[i] == '$' && s[i + 1] == '{'
    && forall k :: 0 <= k < i ==> !(s[k] == '$' && s[k + 1] == '{')
  }

  /**
   A turn replaces what stands between the first "${" and the first brace that closes after it, by the pipeline's
   variable of that name, else by the operating system's, else by nothing.
   */
  lemma TurnReplaces(env: Env, s: string, i: nat, j: nat)
    requires OpensAt(s, i) && ClosesAt(s, i, j)
    ensures i + 2 <= j
    ensures var name := s[i + 2..j];
            Turn(env, s) == Some(s[..i] + (if name in env.vars then env.vars[name]
                                           else if name in env.os then env.os[name] else "") + s[j + 1..])
  {
    hide Find;
    OpeningFound(s, i);
    ClosingFound(s, i, j);
  }

  /** The first brace that closes from i on is at j. */
  predicate ClosesAt(s: string, i: nat, j: nat) {
    i <= j < |s| && s[j] == '}' && forall k :: i <= k < j ==> s[k] != '}'
  }

  /** The loop stops exactly where there is no "${", or no brace closes after the first one. */
  lemma TurnStopsIff(env: Env, s: string)
    ensures Turn(env, s) == None <==> !(exists i: nat, j: nat :: OpensAt(s, i) && ClosesAt(s, i, j))
  {
    hide Find, OpensAt, ClosesAt, Lookup;
    forall i: nat ensures Find(s, OPEN) == Some(i) <==> OpensAt(s, i) {
      OpeningFound(s, i);
    }
    if Find(s, OPEN).Some? {
      var i := Find(s, OPEN).value;
      forall j: nat ensures (j >= i && Find(s[i..], CLOSE) == Some(j - i)) <==> ClosesAt(s, i, j) {
        ClosingFound(s, i, j);
      }
      if Find(s[i..], CLOSE).Some? {
        assert ClosesAt(s, i, i + Find(s[i..], CLOSE).value);
      }
    }
  }

  predicate OccursAt(s: string, sub: string, k: nat) {
    k + |sub| <= |s| && s[k..k + |sub|] == sub
  }

  /** What is found is the first place, and nothing is found only where there is none. */
  lemma {:induction false} FindFacts(s: string, sub: string)
    requires sub != ""
    ensures Find(s, sub).Some? ==> OccursAt(s, sub, Find(s, sub).value)
    ensures forall k: nat :: OccursAt(s, sub, k) ==> Find(s, sub).Some? && Find(s, sub).value <= k
    decreases |s|
  {
    if s != "" && !(|sub| <= |s| && s[..|sub|] == sub) {
      var rest := s[1..];
      FindFacts(rest, sub);
      forall k: nat | OccursAt(s, sub, k) ensures Find(s, sub).Some? && Find(s, sub).value <= k {
        assert k > 0 && rest[k - 1..k - 1 + |sub|] == s[k..k + |sub|];
        assert OccursAt(rest, sub, k - 1);
      }
    }
  }

  lemma OpensHere(s: string, k: nat)
    ensures OccursAt(s, OPEN, k) <==> k + 1 < |s| && s[k] == '$' && s[k + 1] == '{'
  {
    if k + 1 < |s| {
      assert s[k..k + 2] == [s[k], s[k + 1]];
    }
  }

  lemma ClosesHere(s: string, i: nat, k: nat)
    requires i <= |s|
    ensures OccursAt(s[i..], CLOSE, k) <==> i + k < |s| && s[i + k] == '}'
  {
    if i + k < |s| {
      assert s[i..][k..k + 1] == [s[i + k]];
    }
  }

  lemma OpeningFound(s: string, i: nat)
    ensures Find(s, OPEN) == Some(i) <==> OpensAt(s, i)
  {
    hide Find, OccursAt;
    FindFacts(s, OPEN);
    forall k: nat ensures OccursAt(s, OPEN, k) <==> k + 1 < |s| && s[k] == '$' && s[k + 1] == '{' {
      OpensHere(s, k);
    }
    if Find(s, OPEN) == Some(i) {
      forall k | 0 <= k < i ensures !(s[k] == '$' && s[k + 1] == '{') {
        assert !OccursAt(s, OPEN, k);
      }
    }
    if OpensAt(s, i) {
      assert OccursAt(s, OPEN, i);
      var f := Find(s, OPEN).value;
      assert OccursAt(s, OPEN, f) && s[f] == '$' && s[f + 1] == '{';
    }
  }

  lemma ClosingFound(s: string, i: nat, j: nat)
    requires i <= |s|
    ensures (j >= i && Find(s[i..], CLOSE) == Some(j - i)) <==> ClosesAt(s, i, j)
  {
    hide Find, OccursAt;
    FindFacts(s[i..], CLOSE);
    forall k: nat ensures OccursAt(s[i..], CLOSE, k) <==> i + k < |s| && s[i + k] == '}' {
      ClosesHere(s, i, k);
    }
    if j >= i && Find(s[i..], CLOSE) == Some(j - i) {
      assert OccursAt(s[i..], CLOSE, j - i);
      forall k | i <= k < j ensures s[k] != '}' {
        assert !OccursAt(s[i..], CLOSE, k - i);
      }
    }
    if ClosesAt(s, i, j) {
      assert OccursAt(s[i..], CLOSE, j - i) && OccursAt(s[i..], CLOSE, Find(s[i..], CLOSE).value);
    }
  }
}
