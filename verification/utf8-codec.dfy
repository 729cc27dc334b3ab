/**
 That the characters of a text and their bytes are those of UTF-16 (RFC 2781) and of
 UTF-8 (section 3 of RFC 3629): reading what they are written as gives them back.
 */
module Utf8Codec {
  import opened Utf8Truncate

  // ---- units ------------------------------------------------------------------------------------

  /** What a text is made of: whole characters, and surrogates that stand alone. */
  datatype Piece = Char(c: Scalar) | Lone(u: Unit)

  function Units(p: Piece): seq<Unit> {
    match p
    case Char(c) =>
      if c < 0x10000 then [c] else [0xD800 + (c - 0x10000) / 0x400, 0xDC00 + (c - 0x10000) % 0x400]
    case Lone(u) => [u]
  }

  function UnitsAll(pieces: seq<Piece>): seq<Unit> {
    if pieces == [] then [] else Units(pieces[0]) + UnitsAll(pieces[1..])
  }

  /** Characters are no surrogates, and a lone high one is not followed by a low one. */
  predicate IsText(pieces: seq<Piece>) {
    pieces == [] ||
    (&& IsText(pieces[1..])
     && match pieces[0]
        case Char(c) => !(0xD800 <= c <= 0xDFFF)
        case Lone(u) =>
          0xD800 <= u <= 0xDFFF &&
          (u <= 0xDBFF && |pieces| > 1 ==> !(pieces[1].Lone? && 0xDC00 <= pieces[1].u <= 0xDFFF)))
  }

  function ReadAs(pieces: seq<Piece>): seq<Scalar> {
    seq(|pieces|, i requires 0 <= i < |pieces| => if pieces[i].Char? then pieces[i].c else 0xFFFD)
  }

  lemma {:induction false} FirstUnit(pieces: seq<Piece>)
    requires pieces != [] && IsText(pieces)
    ensures |UnitsAll(pieces)| > 0
    ensures 0xDC00 <= UnitsAll(pieces)[0] <= 0xDFFF ==> pieces[0].Lone? && 0xDC00 <= pieces[0].u <= 0xDFFF
  {
    assert UnitsAll(pieces) == Units(pieces[0]) + UnitsAll(pieces[1..]);
  }

  /** A text is read as its characters, a lone surrogate as U+FFFD. */
  lemma {:induction false} CharactersAreRead(pieces: seq<Piece>)
    requires IsText(pieces)
    ensures Characters(UnitsAll(pieces)) == ReadAs(pieces)
  {
    if pieces != [] {
      var rest := UnitsAll(pieces[1..]);
      var s, one := UnitsAll(pieces), Units(pieces[0]);
      assert s == one + rest && s[|one|..] == rest;
      CharactersAreRead(pieces[1..]);
      if pieces[1..] != [] { FirstUnit(pieces[1..]); }
      assert ReadAs(pieces) == [ReadAs(pieces)[0]] + ReadAs(pieces[1..]);
      if pieces[0].Char? && pieces[0].c >= 0x10000 { PairIs(pieces[0].c, s); }
    }
  }

  lemma PairIs(c: Scalar, s: seq<Unit>)
    requires c >= 0x10000 && |s| >= 2 && s[..2] == Units(Char(c))
    ensures High(s[0]) && Low(s[1]) && 0x10000 + (s[0] as int - 0xD800) * 0x400 + (s[1] as int - 0xDC00) == c
  {
    assert s[0] == s[..2][0] && s[1] == s[..2][1];
  }

  // ---- bytes ------------------------------------------------------------------------------------

  /** The character some bytes stand for, by the ranges of its lead byte. */
  function ValueOf(b: seq<Byte>): int
    requires 1 <= |b| <= 4
  {
    if |b| == 1 then b[0]
    else if |b| == 2 then (b[0] as int - 192) * 64 + (b[1] as int - 128)
    else if |b| == 3 then ((b[0] as int - 224) * 64 + (b[1] as int - 128)) * 64 + (b[2] as int - 128)
    else (((b[0] as int - 240) * 64 + (b[1] as int - 128)) * 64 + (b[2] as int - 128)) * 64 + (b[3] as int - 128)
  }

  /** A character is written with the least number of bytes that reaches it, the lead byte
      says how many follow, and together they stand for it. */
  lemma BytesAreRead(c: Scalar)
    ensures var b := Utf8(c);
      && |b| == (if c <= 0x7F then 1 else if c <= 0x7FF then 2 else if c <= 0xFFFF then 3 else 4)
      && (|b| == 1 <==> b[0] <= 127) && (|b| == 2 <==> 192 <= b[0] <= 223) && (|b| == 3 <==> 224 <= b[0] <= 239)
      && (|b| == 4 <==> 240 <= b[0] <= 247) && (forall i :: 1 <= i < |b| ==> 128 <= b[i] <= 191)
      && ValueOf(b) == c
  {
    Split(c, 64);
    Split(c / 64, 64);
    Split(c / 4096, 64);
    Thrice(c);
  }

  lemma Split(n: nat, d: nat)
    requires d > 0
    ensures n == d * (n / d) + n % d
  {}

  lemma Thrice(n: nat)
    ensures n / 64 / 64 == n / 4096 && n / 4096 / 64 == n / 262144
  {}
}
