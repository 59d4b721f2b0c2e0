/** UTF-8 as section 3 of RFC 3629 defines it, read the way a range loop over a string reads it. */
module Utf8 {
  type Byte = b: nat | b < 256

  type Bytes = seq<Byte>

  /** The replacement character, which also stands for a byte that begins no character. */
  const RUNE_ERROR: nat := 0xFFFD

  /** A code point that UTF-8 can encode: not a surrogate. */
  type Rune = r: nat | r < 0xD800 || 0xE000 <= r <= 0x10FFFF

  type Runes = seq<Rune>

  /** A byte that continues a character, with six bits of it. */
  function Rest(q: nat): Byte {
    0x80 + q % 0x40
  }

  function Encode(r: Rune): Bytes {
    var q1 := r / 0x40;
    var q2 := q1 / 0x40;
    assert q1 <= 0x43FF && q2 <= 0x10F;
    if r < 0x80 then [r]
    else if r < 0x800 then [0xC0 + q1, Rest(r)]
    else if r < 0x10000 then [0xE0 + q2, Rest(q1), Rest(r)]
    else [0xF0 + q2 / 0x40, Rest(q2), Rest(q1), Rest(r)]
  }

  predicate Tail(b: Byte) {
    0x80 <= b <= 0xBF
  }

  /**
   The second byte that may follow a first byte: neither overlong forms, nor surrogates, nor beyond the last code
   point.
   */
  predicate Second(a: Byte, b: Byte) {
    && Tail(b) && (a == 0xE0 ==> 0xA0 <= b) && (a == 0xED ==> b <= 0x9F)
    && (a == 0xF0 ==> 0x90 <= b) && (a == 0xF4 ==> b <= 0x8F)
  }

  /** How many bytes the well-formed character at the start takes; 0 if there is none. */
  function Width(s: Bytes): nat
    requires s != []
  {
    if s[0] < 0x80 then 1
    else if 0xC2 <= s[0] <= 0xDF && |s| >= 2 && Tail(s[1]) then 2
    else if 0xE0 <= s[0] <= 0xEF && |s| >= 3 && Second(s[0], s[1]) && Tail(s[2]) then 3
    else if 0xF0 <= s[0] <= 0xF4 && |s| >= 4 && Second(s[0], s[1]) && Tail(s[2]) && Tail(s[3]) then 4
    else 0
  }

  /** Six more bits. */
  function More(q: nat, b: Byte): nat
    requires Tail(b)
  {
    q * 0x40 + (b - 0x80) as nat
  }

  /** The character at the start, or the replacement character where there is none. */
  function First(s: Bytes): Rune
    requires s != []
  {
    var w := Width(s);
    if w == 0 then RUNE_ERROR
    else if w == 1 then s[0]
    else if w == 2 then More(s[0] as int - 0xC0, s[1])
    else if w == 3 then More(More(s[0] as int - 0xE0, s[1]), s[2])
    else More(More(More(s[0] as int - 0xF0, s[1]), s[2]), s[3])
  }

  /** How far the loop moves on: past the character, or past one byte that begins none. */
  function Advance(s: Bytes): (w: nat)
    requires s != []
    ensures 1 <= w <= |s|
  {
    if Width(s) == 0 then 1 else Width(s)
  }

  function Decode(s: Bytes): Runes {
    if s == [] then [] else [First(s)] + Decode(s[Advance(s)..])
  }

  function EncodeAll(rs: Runes): Bytes {
    if rs == [] then [] else Encode(rs[0]) + EncodeAll(rs[1..])
  }

  /** A sequence of well-formed characters. */
  predicate Valid(s: Bytes)
    decreases |s|
  {
    s == [] || (Width(s) > 0 && Valid(s[Width(s)..]))
  }

  lemma MoreRest(q: nat)
    ensures Tail(Rest(q)) && More(q / 0x40, Rest(q)) == q
    ensures Rest(q) == 0x80 + q - 0x40 * (q / 0x40)
  {
  }

  lemma RestMore(q: nat, b: Byte)
    requires Tail(b)
    ensures More(q, b) / 0x40 == q && Rest(More(q, b)) == b
    ensures More(q, b) == q * 0x40 + b as int - 0x80
  {
  }

  /** Reading back a written character, whatever follows it. */
  lemma FirstOfEncoded(r: Rune, rest: Bytes)
    ensures Width(Encode(r) + rest) == |Encode(r)| && First(Encode(r) + rest) == r
  {
    hide Rest, More;
    var s := Encode(r) + rest;
    var q1 := r / 0x40;
    var q2 := q1 / 0x40;
    MoreRest(r);
    MoreRest(q1);
    MoreRest(q2);
    assert forall i :: 0 <= i < |Encode(r)| ==> s[i] == Encode(r)[i];
  }

  /** A well-formed character is the encoding of what is read: there is no second spelling. */
  lemma EncodedFirst(s: Bytes)
    requires s != [] && Width(s) > 0
    ensures Encode(First(s)) == s[..Width(s)]
  {
    hide Rest, More;
    var w := Width(s);
    if w == 2 {
      RestMore(s[0] as int - 0xC0, s[1]);
    } else if w == 3 {
      RestMore(s[0] as int - 0xE0, s[1]);
      RestMore(More(s[0] as int - 0xE0, s[1]), s[2]);
    } else if w == 4 {
      RestMore(s[0] as int - 0xF0, s[1]);
      RestMore(More(s[0] as int - 0xF0, s[1]), s[2]);
      RestMore(More(More(s[0] as int - 0xF0, s[1]), s[2]), s[3]);
    }
  }

  lemma {:induction false} DecodeOfEncoded(rs: Runes)
    ensures Decode(EncodeAll(rs)) == rs && Valid(EncodeAll(rs))
    decreases |rs|
  {
    if rs != [] {
      var s, rest := EncodeAll(rs), EncodeAll(rs[1..]);
      FirstOfEncoded(rs[0], rest);
      assert s[|Encode(rs[0])|..] == rest;
      DecodeOfEncoded(rs[1..]);
    }
  }

  lemma {:induction false} EncodedDecoded(s: Bytes)
    requires Valid(s)
    ensures EncodeAll(Decode(s)) == s
    decreases |s|
  {
    if s != [] {
      EncodedFirst(s);
      EncodedDecoded(s[Width(s)..]);
      assert Decode(s)[1..] == Decode(s[Width(s)..]);
    }
  }

  /** Exactly the valid strings survive decoding and encoding. */
  lemma ValidIff(s: Bytes)
    ensures Valid(s) <==> EncodeAll(Decode(s)) == s
  {
    if Valid(s) {
      EncodedDecoded(s);
    } else {
      DecodeOfEncoded(Decode(s));
    }
  }

  // ---------- The bytes ----------

  /** How many bytes a character takes, and how they spell it: the table of section 3 of RFC 3629. */
  lemma EncodingTable(r: Rune)
    ensures var b := Encode(r);
            && (r <= 0x7F <==> |b| == 1) && (0x80 <= r <= 0x7FF <==> |b| == 2)
            && (0x800 <= r <= 0xFFFF <==> |b| == 3) && (0x10000 <= r <==> |b| == 4)
            && (|b| == 1 ==> b[0] as int == r)
            && (|b| == 2 ==> (b[0] as int - 0xC0) * 0x40 + (b[1] as int - 0x80) == r)
            && (|b| == 3 ==> (b[0] as int - 0xE0) * 0x1000 + (b[1] as int - 0x80) * 0x40 + (b[2] as int - 0x80) == r)
            && (|b| == 4 ==>
                  (b[0] as int - 0xF0) * 0x40000 + (b[1] as int - 0x80) * 0x1000
                  + (b[2] as int - 0x80) * 0x40 + (b[3] as int - 0x80) == r)
            && forall i :: 1 <= i < |b| ==> 0x80 <= b[i] <= 0xBF
  {
    hide Rest, More;
    var q1 := r / 0x40;
    var q2 := q1 / 0x40;
    MoreRest(r);
    MoreRest(q1);
    MoreRest(q2);
  }

  /** A byte with which no character's encoding begins reads as U+FFFD, and reading goes on right after it. */
  lemma BadByteIsReplaced(s: Bytes)
    requires s != [] && forall r: Rune :: !(Encode(r) <= s)
    ensures Decode(s) == [0xFFFD] + Decode(s[1..])
  {
    hide Encode;
    SomeCharacterBegins(s);
  }

  lemma SomeCharacterBegins(s: Bytes)
    requires s != []
    ensures Width(s) > 0 ==> exists r: Rune :: Encode(r) <= s
  {
    if Width(s) > 0 {
      EncodedFirst(s);
      assert Encode(First(s)) <= s;
    }
  }

  /** And where one does begin, it is read, and reading goes on after it. */
  lemma CharacterIsRead(r: Rune, rest: Bytes)
    ensures Decode(Encode(r) + rest) == [r] + Decode(rest)
  {
    FirstOfEncoded(r, rest);
    assert (Encode(r) + rest)[|Encode(r)|..] == rest;
  }
}
