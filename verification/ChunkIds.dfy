/** The ids generated for chunk records: run, component, range and attempt, joined by colons. */
module ChunkIds {
  datatype Unit = Unit(run: string, component: string, start: int, end: int, attempt: int)

  /** What UpsertChunkRun demands of a unit once a missing attempt has become the first. */
  predicate Acceptable(u: Unit) {
    u.run != "" && u.component != "" && u.start <= u.end && u.attempt != 0
  }

  function Digit(d: nat): char
    requires d < 10
  {
    "0123456789"[d]
  }

  predicate IsDigit(c: char) {
    '0' <= c <= '9'
  }

  lemma DigitIsDigit(d: nat)
    requires d < 10
    ensures IsDigit(Digit(d)) && Digit(d) as int == '0' as int + d
  {
  }

  /** The number in decimal, without sign. */
  function Digits(n: nat): string {
    if n < 10 then [Digit(n)] else Digits(n / 10) + [Digit(n % 10)]
  }

  function Abs(i: int): nat {
    if i < 0 then -i else i
  }

  /** The %d of a signed number. */
  function Decimal(i: int): string {
    if i < 0 then "-" + Digits(-i) else Digits(i)
  }

  function Range(u: Unit): string {
    Decimal(u.start) + "-" + Decimal(u.end)
  }

  function Tail(u: Unit): string {
    u.component + ":" + Range(u) + ":" + Decimal(u.attempt)
  }

  function Id(u: Unit): string {
    u.run + ":" + Tail(u)
  }

  lemma {:induction false} DigitsAreDigits(n: nat)
    ensures Digits(n) != "" && forall i :: 0 <= i < |Digits(n)| ==> IsDigit(Digits(n)[i])
  {
    hide Digit;
    DigitIsDigit(n % 10);
    if n >= 10 {
      DigitsAreDigits(n / 10);
    }
  }

  lemma NoMarks(i: int)
    ensures ':' !in Decimal(i) && ':' !in Digits(Abs(i)) && '-' !in Digits(Abs(i))
  {
    DigitsAreDigits(Abs(i));
  }

  lemma {:induction false} DigitsInjective(m: nat, n: nat)
    requires Digits(m) == Digits(n)
    ensures m == n
  {
    hide Digit;
    DigitIsDigit(m % 10);
    DigitIsDigit(n % 10);
    if m < 10 && n < 10 {
      assert Digits(m)[0] == Digits(n)[0];
    } else if m < 10 {
      DigitsAreDigits(n / 10);
    } else if n < 10 {
      DigitsAreDigits(m / 10);
    } else {
      var a, b := Digits(m), Digits(n);
      assert a[..|a| - 1] == Digits(m / 10) && b[..|b| - 1] == Digits(n / 10);
      assert a[|a| - 1] == Digit(m % 10) && b[|b| - 1] == Digit(n % 10);
      DigitsInjective(m / 10, n / 10);
    }
  }

  lemma DecimalInjective(i: int, j: int)
    requires Decimal(i) == Decimal(j)
    ensures i == j
  {
    var s := Decimal(i);
    DigitsAreDigits(Abs(i));
    DigitsAreDigits(Abs(j));
    assert i < 0 <==> s[0] == '-';
    assert j < 0 <==> s[0] == '-';
    if i < 0 {
      assert s[1..] == Digits(Abs(i)) && s[1..] == Digits(Abs(j));
    }
    DigitsInjective(Abs(i), Abs(j));
  }

  /** Two texts with the same first mark agree on both sides of it. */
  lemma SplitAtFirst(a: string, b: string, mark: char, x: string, y: string)
    requires mark !in a && mark !in b && a + [mark] + x == b + [mark] + y
    ensures a == b && x == y
  {
    var s := a + [mark] + x;
    assert s[|a|] == mark && s[|b|] == mark;
    assert forall i :: 0 <= i < |a| ==> a[i] == s[i];
    assert forall i :: 0 <= i < |b| ==> b[i] == s[i];
    assert |a| == |b|;
    assert a == s[..|a|] && b == s[..|a|] && x == s[|a| + 1..] && y == s[|a| + 1..];
  }

  lemma SplitAtLast(a: string, b: string, mark: char, x: string, y: string)
    requires mark !in x && mark !in y && a + [mark] + x == b + [mark] + y
    ensures a == b && x == y
  {
    var s := a + [mark] + x;
    assert s[|a|] == mark && s[|b|] == mark;
    assert forall i :: |a| < i < |s| ==> s[i] == x[i - |a| - 1];
    assert forall i :: |b| < i < |s| ==> s[i] == y[i - |b| - 1];
    assert |a| == |b|;
    assert a == s[..|a|] && b == s[..|a|] && x == s[|a| + 1..] && y == s[|a| + 1..];
  }

  lemma RangeInjective(u: Unit, v: Unit)
    requires Range(u) == Range(v)
    ensures u.start == v.start && u.end == v.end
  {
    hide Digits, Decimal, Range;
    NoMarks(u.start);
    NoMarks(v.start);
    RangeSign(u);
    RangeSign(v);
    var a, b := Abs(u.start), Abs(v.start);
    SplitAtFirst(Digits(a), Digits(b), '-', Decimal(u.end), Decimal(v.end));
    DigitsInjective(a, b);
    DecimalInjective(u.end, v.end);
  }

  /** A spelled range begins with the sign of its start, if it has one, and goes on with digits. */
  lemma RangeSign(u: Unit)
    ensures Range(u) != "" && (u.start < 0 <==> Range(u)[0] == '-')
    ensures (if u.start < 0 then Range(u)[1..] else Range(u)) == Digits(Abs(u.start)) + ['-'] + Decimal(u.end)
  {
    hide Digit, Digits;
    DigitsAreDigits(Abs(u.start));
  }

  lemma RangeHasNoColon(u: Unit)
    ensures ':' !in Range(u)
  {
    NoMarks(u.start);
    NoMarks(u.end);
  }

  lemma TailInjective(u: Unit, v: Unit)
    requires Tail(u) == Tail(v)
    ensures u.component == v.component && u.start == v.start && u.end == v.end && u.attempt == v.attempt
  {
    NoMarks(u.attempt);
    NoMarks(v.attempt);
    RangeHasNoColon(u);
    RangeHasNoColon(v);
    SplitAtLast(u.component + ":" + Range(u), v.component + ":" + Range(v), ':', Decimal(u.attempt),
      Decimal(v.attempt));
    SplitAtLast(u.component, v.component, ':', Range(u), Range(v));
    DecimalInjective(u.attempt, v.attempt);
    RangeInjective(u, v);
  }

  /** Some acceptable units of the two runs get one id. */
  ghost predicate CanCollide(r: string, s: string) {
    exists u: Unit, v: Unit :: u.run == r && v.run == s && Acceptable(u) && Acceptable(v) && Id(u) == Id(v)
  }

  /** One run id, followed by a colon, begins the other. */
  predicate ColonPrefix(r: string, s: string) {
    r + ":" <= s || s + ":" <= r
  }

  /** Units of one run never share an id. */
  lemma IdInjectiveInRun(u: Unit, v: Unit)
    requires Id(u) == Id(v) && u.run == v.run
    ensures u == v
  {
    assert Id(u)[|u.run| + 1..] == Tail(u) && Id(v)[|v.run| + 1..] == Tail(v);
    TailInjective(u, v);
  }

  lemma SameIdColonPrefix(u: Unit, v: Unit)
    requires Id(u) == Id(v) && u.run != v.run
    ensures ColonPrefix(u.run, v.run)
  {
    var s := Id(u);
    assert s[..|u.run|] == u.run && s[..|v.run|] == v.run;
    assert s[..|u.run| + 1] == u.run + ":" && s[..|v.run| + 1] == v.run + ":";
    if |u.run| < |v.run| {
      assert u.run + ":" == v.run[..|u.run| + 1];
    } else if |v.run| < |u.run| {
      assert v.run + ":" == u.run[..|v.run| + 1];
    }
  }

  lemma ColonPrefixCollides(r: string, s: string)
    requires r != "" && r + ":" <= s
    ensures CanCollide(r, s) && CanCollide(s, r)
  {
    var rest := s[|r| + 1..];
    assert s == r + ":" + rest;
    var u := Unit(r, rest + ":c", 0, 0, 1);
    var v := Unit(s, "c", 0, 0, 1);
    assert Tail(u) == rest + ":" + Tail(v);
    assert Id(u) == r + ":" + rest + ":" + Tail(v) == Id(v);
  }

  /** Units of two different runs can share an id exactly if one run id followed by a colon begins the other. */
  lemma CollideIff(r: string, s: string)
    requires r != s && r != "" && s != ""
    ensures CanCollide(r, s) <==> ColonPrefix(r, s)
  {
    if CanCollide(r, s) {
      var u: Unit, v: Unit :| u.run == r && v.run == s && Id(u) == Id(v);
      SameIdColonPrefix(u, v);
    } else if r + ":" <= s {
      ColonPrefixCollides(r, s);
    } else if s + ":" <= r {
      ColonPrefixCollides(s, r);
    }
  }

  /** Two units of two runs that are given one id, whatever their range and attempt. */
  lemma TwoRunsOneId(start: int, end: int, attempt: int)
    ensures Id(Unit("run", "a:b", start, end, attempt)) == Id(Unit("run:a", "b", start, end, attempt))
  {
    hide Range, Decimal;
    var u, v := Unit("run", "a:b", start, end, attempt), Unit("run:a", "b", start, end, attempt);
    var rest := ":" + Range(u) + ":" + Decimal(attempt);
    assert Range(u) == Range(v) by {
      SameRange(u, v);
    }
    assert Id(u) == "run" + ":" + "a:b" + rest;
    assert Id(v) == "run:a" + ":" + "b" + rest;
    assert "run" + ":" + "a:b" == "run:a" + ":" + "b";
  }

  lemma SameRange(u: Unit, v: Unit)
    requires u.start == v.start && u.end == v.end
    ensures Range(u) == Range(v)
  {
  }

  /** Run ids of which none, followed by a colon, begins another; those without colons are such. */
  predicate Distinguishable(runs: set<string>) {
    forall r, s :: r in runs && s in runs && r != s ==> !ColonPrefix(r, s)
  }

  lemma ColonPrefixHasColon(r: string, s: string)
    requires ColonPrefix(r, s)
    ensures ':' in r || ':' in s
  {
    var mark := if r + ":" <= s then |r| else |s|;
    assert if r + ":" <= s then s[mark] == (r + ":")[mark] == ':' else r[mark] == (s + ":")[mark] == ':';
  }

  lemma ColonFreeRuns(runs: set<string>)
    requires forall r :: r in runs ==> ':' !in r
    ensures Distinguishable(runs)
  {
    forall r, s | r in runs && s in runs && r != s ensures !ColonPrefix(r, s) {
      if ColonPrefix(r, s) {
        ColonPrefixHasColon(r, s);
      }
    }
  }

  lemma IdInjective(u: Unit, v: Unit, runs: set<string>)
    requires Distinguishable(runs) && u.run in runs && v.run in runs && Id(u) == Id(v)
    ensures u == v
  {
    if u.run == v.run {
      IdInjectiveInRun(u, v);
    } else {
      SameIdColonPrefix(u, v);
    }
  }

  // ---------- The spelling ----------

  /** What a row of digits says in decimal. */
  function Reading(s: string): int {
    if s == "" then 0 else 10 * Reading(s[..|s| - 1]) + (s[|s| - 1] as int - '0' as int)
  }

  /** The digits say the number, and do not begin with a zero unless it is zero. */
  lemma {:induction false} DigitsSay(n: nat)
    ensures Reading(Digits(n)) == n && Digits(n) != "" && (Digits(n)[0] == '0' <==> n == 0)
  {
    DigitIsDigit(n % 10);
    if n < 10 {
      assert Reading([]) == 0;
      assert [Digit(n)][..0] == [];
    } else {
      DigitsSay(n / 10);
      var s := Digits(n);
      assert s[..|s| - 1] == Digits(n / 10) && s[|s| - 1] == Digit(n % 10);
    }
  }

  lemma DecimalSays(i: int)
    ensures i >= 0 ==> Reading(Decimal(i)) == i && Decimal(i)[0] != '-'
    ensures i < 0 ==> Decimal(i)[0] == '-' && Reading(Decimal(i)[1..]) == -i
  {
    DigitsSay(Abs(i));
    DigitsAreDigits(Abs(i));
    if i < 0 {
      assert Decimal(i)[1..] == Digits(-i);
    }
  }

  /** A generated id: run, component, range and attempt. */
  lemma IdIsSpelled(u: Unit)
    ensures Id(u) ==
            u.run + ":" + u.component + ":" + Decimal(u.start) + "-" + Decimal(u.end) + ":" + Decimal(u.attempt)
  {
    hide Decimal;
    var a, b, c := u.run + ":", u.component + ":", Decimal(u.start) + "-" + Decimal(u.end);
    assert a + (b + c + ":" + Decimal(u.attempt)) == a + b + c + ":" + Decimal(u.attempt);
    assert u.component + ":" + c + ":" + Decimal(u.attempt) == b + c + ":" + Decimal(u.attempt);
    assert a + b + c == u.run + ":" + u.component + ":" + Decimal(u.start) + "-" + Decimal(u.end);
  }
}
