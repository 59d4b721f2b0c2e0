/** Stripping control characters from untrusted strings. */
module Sanitize {
  import opened Utf8

  const NEWLINE: nat := 0x0A
  const TAB: nat := 0x09

  /** C0, DEL or C1. */
  predicate IsControl(r: nat) {
    r < 0x20 || r == 0x7F || 0x80 <= r <= 0x9F
  }

  predicate Kept(r: nat, allowWhitespace: bool) {
    (allowWhitespace && (r == NEWLINE || r == TAB)) || !IsControl(r)
  }

  function Filter(rs: Runes, allowWhitespace: bool): Runes {
    if rs == [] then []
    else (if Kept(rs[0], allowWhitespace) then [rs[0]] else []) + Filter(rs[1..], allowWhitespace)
  }

  /** What both functions are for: decode, drop the control characters, encode. */
  function Stripped(s: Bytes, allowWhitespace: bool): Bytes {
    EncodeAll(Filter(Decode(s), allowWhitespace))
  }

  predicate AllKept(rs: Runes, allowWhitespace: bool) {
    forall i :: 0 <= i < |rs| ==> Kept(rs[i], allowWhitespace)
  }

  // ---------- Properties ----------

  lemma FilterCons(r: Rune, rs: Runes, ws: bool)
    ensures Filter([r] + rs, ws) == if Kept(r, ws) then [r] + Filter(rs, ws) else Filter(rs, ws)
  {
    assert ([r] + rs)[1..] == rs;
  }

  lemma AllKeptCons(r: Rune, rs: Runes, ws: bool)
    ensures AllKept([r] + rs, ws) <==> Kept(r, ws) && AllKept(rs, ws)
  {
    var all := [r] + rs;
    assert all[0] == r;
    assert forall i :: 0 <= i < |rs| ==> rs[i] == all[i + 1];
  }

  lemma EncodeCons(r: Rune, rs: Runes)
    ensures EncodeAll([r] + rs) == Encode(r) + EncodeAll(rs)
  {
    assert ([r] + rs)[1..] == rs;
  }

  lemma {:induction false} FilterIsKept(rs: Runes, ws: bool)
    ensures AllKept(Filter(rs, ws), ws) && |Filter(rs, ws)| <= |rs|
    ensures Filter(rs, ws) == rs <==> AllKept(rs, ws)
    decreases |rs|
  {
    if rs != [] {
      var r, rest := rs[0], rs[1..];
      assert rs == [r] + rest;
      FilterIsKept(rest, ws);
      FilterCons(r, rest, ws);
      AllKeptCons(r, rest, ws);
      AllKeptCons(r, Filter(rest, ws), ws);
      if Kept(r, ws) {
        assert Filter(rs, ws)[1..] == Filter(rest, ws);
      }
    }
  }

  /** Filtering twice is filtering with the stricter of the two. */
  lemma {:induction false} FilterTwice(rs: Runes, ws: bool, ws': bool)
    ensures Filter(Filter(rs, ws), ws') == Filter(rs, ws && ws')
    decreases |rs|
  {
    if rs != [] {
      var r, rest := rs[0], rs[1..];
      assert rs == [r] + rest;
      FilterTwice(rest, ws, ws');
      FilterCons(r, rest, ws);
      FilterCons(r, rest, ws && ws');
      FilterCons(r, Filter(rest, ws), ws');
    }
  }

  /**
   The result is valid UTF-8 whose characters are the kept ones of the input, in order, and none of them a control
   character.
   */
  lemma StrippedIsValid(s: Bytes, ws: bool)
    ensures Valid(Stripped(s, ws)) && Decode(Stripped(s, ws)) == Filter(Decode(s), ws)
    ensures AllKept(Decode(Stripped(s, ws)), ws)
  {
    DecodeOfEncoded(Filter(Decode(s), ws));
    FilterIsKept(Decode(s), ws);
  }

  /** Both functions are idempotent, and applied one after the other in either order both give Line. */
  lemma StrippedTwice(s: Bytes, ws: bool, ws': bool)
    ensures Stripped(Stripped(s, ws), ws') == Stripped(s, ws && ws')
  {
    StrippedIsValid(s, ws);
    FilterTwice(Decode(s), ws, ws');
  }

  /** The test for the early return is exact: what passes it, and nothing else, is left as it is. */
  lemma UnchangedIff(s: Bytes, ws: bool)
    ensures Stripped(s, ws) == s <==> Valid(s) && AllKept(Decode(s), ws)
  {
    FilterIsKept(Decode(s), ws);
    if Valid(s) && AllKept(Decode(s), ws) {
      EncodedDecoded(s);
    }
    if Stripped(s, ws) == s {
      StrippedIsValid(s, ws);
    }
  }

  // ---------- The loops ----------

  lemma ReadStep(s: Bytes, i: nat)
    requires i < |s|
    ensures Decode(s[i..]) == [First(s[i..])] + Decode(s[i + Advance(s[i..])..])
    ensures Valid(s[i..]) <==> Width(s[i..]) > 0 && Valid(s[i + Advance(s[i..])..])
  {
    hide Width, First;
    assert s[i..][Advance(s[i..])..] == s[i + Advance(s[i..])..];
  }

  lemma ReadEnd(s: Bytes, ws: bool)
    ensures s[0..] == s && s[|s|..] == []
    ensures Decode([]) == [] && Valid([]) && AllKept([], ws) && Stripped([], ws) == []
  {
  }

  method ValidString(s: Bytes) returns (valid: bool)
    ensures valid == Valid(s)
  {
    hide Width, Valid;
    var i := 0;
    ReadEnd(s, true);
    while i < |s|
      invariant 0 <= i <= |s| && Valid(s) == Valid(s[i..])
    {
      ReadStep(s, i);
      if Width(s[i..]) == 0 {
        return false;
      }
      i := i + Advance(s[i..]);
    }
    valid := true;
  }

  method IsClean(s: Bytes, allowWhitespace: bool) returns (clean: bool)
    ensures clean <==> Valid(s) && AllKept(Decode(s), allowWhitespace)
  {
    hide Width, Valid, Decode, First, AllKept;
    var valid := ValidString(s);
    if !valid {
      return false;
    }
    var i := 0;
    ReadEnd(s, allowWhitespace);
    while i < |s|
      invariant 0 <= i <= |s| && (AllKept(Decode(s), allowWhitespace) <==> AllKept(Decode(s[i..]), allowWhitespace))
    {
      var r := First(s[i..]);
      ReadStep(s, i);
      AllKeptCons(r, Decode(s[i + Advance(s[i..])..]), allowWhitespace);
      i := i + Advance(s[i..]);
      if allowWhitespace && (r == NEWLINE || r == TAB) {
        continue;
      }
      if IsControl(r) {
        return false;
      }
    }
    clean := true;
  }

  /** What is still to be written once the character at i is behind. */
  lemma StripStep(s: Bytes, i: nat, ws: bool)
    requires i < |s|
    ensures var r, rest := First(s[i..]), Stripped(s[i + Advance(s[i..])..], ws);
            Stripped(s[i..], ws) == if Kept(r, ws) then Encode(r) + rest else rest
  {
    hide Width, First, Encode, Kept;
    var r, rest := First(s[i..]), Decode(s[i + Advance(s[i..])..]);
    ReadStep(s, i);
    FilterCons(r, rest, ws);
    EncodeCons(r, Filter(rest, ws));
  }

  lemma Associate(a: Bytes, b: Bytes, c: Bytes)
    ensures a + b + c == a + (b + c)
  {
  }

  /** String: newline and tab stay. */
  method String(s: Bytes) returns (r: Bytes)
    ensures r == Stripped(s, true)
  {
    hide Width, Valid, Decode, First, AllKept, Encode, Stripped;
    var clean := IsClean(s, true);
    UnchangedIff(s, true);
    if clean {
      return s;
    }
    var b: Bytes, i := [], 0;
    ReadEnd(s, true);
    while i < |s|
      invariant 0 <= i <= |s| && Stripped(s, true) == b + Stripped(s[i..], true)
    {
      var c := First(s[i..]);
      StripStep(s, i, true);
      Associate(b, Encode(c), Stripped(s[i + Advance(s[i..])..], true));
      i := i + Advance(s[i..]);
      if c == RUNE_ERROR {
        b := b + Encode(RUNE_ERROR);
      } else if c == NEWLINE || c == TAB {
        b := b + Encode(c);
      } else if !IsControl(c) {
        b := b + Encode(c);
      }
    }
    r := b;
  }

  /** Line: newline and tab go too. */
  method Line(s: Bytes) returns (r: Bytes)
    ensures r == Stripped(s, false)
  {
    hide Width, Valid, Decode, First, AllKept, Encode, Stripped;
    var clean := IsClean(s, false);
    UnchangedIff(s, false);
    if clean {
      return s;
    }
    var b: Bytes, i := [], 0;
    ReadEnd(s, false);
    while i < |s|
      invariant 0 <= i <= |s| && Stripped(s, false) == b + Stripped(s[i..], false)
    {
      var c := First(s[i..]);
      StripStep(s, i, false);
      Associate(b, Encode(c), Stripped(s[i + Advance(s[i..])..], false));
      i := i + Advance(s[i..]);
      if c == RUNE_ERROR {
        b := b + Encode(RUNE_ERROR);
      } else if !IsControl(c) {
        b := b + Encode(c);
      }
    }
    r := b;
  }

  // ---------- Which characters ----------

  /**
   Characters are kept one by one: newline and tab where they are allowed, and all but those below U+0020, U+007F, and
   those from U+0080 to U+009F.
   */
  lemma {:induction false} KeptOneByOne(rs: Runes, more: Runes, r: Rune, ws: bool)
    ensures Filter([], ws) == [] && Filter(rs + more, ws) == Filter(rs, ws) + Filter(more, ws)
    ensures Filter([r], ws) ==
            if (ws && (r == 10 || r == 9)) || !(r < 32 || r == 127 || 128 <= r <= 159) then [r] else []
    decreases |rs|
  {
    hide Filter;
    FilterCons(r, [], ws);
    FilterNothing(ws);
    assert [r] + [] == [r];
    if rs == [] {
      assert rs + more == more;
    } else {
      assert rs == [rs[0]] + rs[1..] && rs + more == [rs[0]] + (rs[1..] + more);
      KeptOneByOne(rs[1..], more, r, ws);
      FilterCons(rs[0], rs[1..], ws);
      FilterCons(rs[0], rs[1..] + more, ws);
    }
  }

  lemma FilterNothing(ws: bool)
    ensures Filter([], ws) == []
  {
  }

  /** No control character is left, whatever the input; a string keeps at most newlines and tabs. */
  lemma NoControlLeft(s: Bytes, ws: bool)
    ensures forall r :: r in Decode(Stripped(s, ws)) ==>
      (ws && (r == 10 || r == 9)) || (32 <= r && r != 127 && !(128 <= r <= 159))
  {
    StrippedIsValid(s, ws);
  }
}
