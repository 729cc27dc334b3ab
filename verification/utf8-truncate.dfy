/**
 `truncateString` of `agent-base/agentd/event-bounds.mjs`: a text cut to its first
 bytes, at a character boundary. A text is UTF-16 units; its bytes are those of
 UTF-8 (section 3 of RFC 3629), a lone surrogate written as U+FFFD.
 */
module Utf8Truncate {
  type Unit = u: nat | u < 0x10000
  type Byte = b: nat | b < 0x100
  type Scalar = c: nat | c < 0x110000

  predicate High(u: Unit) { 0xD800 <= u < 0xDC00 }
  predicate Low(u: Unit) { 0xDC00 <= u < 0xE000 }

  /** The characters of a text. */
  function Characters(s: seq<Unit>): seq<Scalar> {
    if s == [] then []
    else if High(s[0]) && |s| > 1 && Low(s[1]) then
      [0x10000 + (s[0] as int - 0xD800) * 0x400 + (s[1] as int - 0xDC00)] + Characters(s[2..])
    else [if High(s[0]) || Low(s[0]) then 0xFFFD else s[0]] + Characters(s[1..])
  }

  function Utf8(c: Scalar): (r: seq<Byte>)
    ensures 1 <= |r| <= 4 && (c < 0x10000 ==> |r| <= 3)
    ensures !Continues(r[0]) && forall i :: 1 <= i < |r| ==> Continues(r[i])
  {
    if c < 0x80 then [c]
    else if c < 0x800 then [0xC0 + c / 64, 0x80 + c % 64]
    else if c < 0x10000 then [0xE0 + c / 4096, 0x80 + c / 64 % 64, 0x80 + c % 64]
    else [0xF0 + c / 262144, 0x80 + c / 4096 % 64, 0x80 + c / 64 % 64, 0x80 + c % 64]
  }

  /** `(b & 0xc0) === 0x80` */
  predicate Continues(b: Byte) { 0x80 <= b < 0xC0 }

  function Encode(cs: seq<Scalar>): seq<Byte> {
    if cs == [] then [] else Encode(cs[..|cs| - 1]) + Utf8(cs[|cs| - 1])
  }

  /** `Buffer.from(s, 'utf8')` */
  function Bytes(s: seq<Unit>): seq<Byte> { Encode(Characters(s)) }

  lemma {:induction false} EncodeConcat(a: seq<Scalar>, b: seq<Scalar>)
    ensures Encode(a + b) == Encode(a) + Encode(b)
  {
    if b == [] {
      assert a + b == a;
    } else {
      assert (a + b)[..|a + b| - 1] == a + b[..|b| - 1];
      EncodeConcat(a, b[..|b| - 1]);
      hide Utf8;
      assert Encode(a) + Encode(b[..|b| - 1]) + Utf8(b[|b| - 1]) == Encode(a) + (Encode(b[..|b| - 1]) + Utf8(b[|b| - 1]));
    }
  }

  lemma EncodeOne(c: Scalar)
    ensures Encode([c]) == Utf8(c)
  {
    hide Utf8;
    assert [c][..0] == [];
  }

  /** Three bytes a unit are always enough. */
  lemma {:induction false} ThreePerUnit(s: seq<Unit>)
    ensures |Bytes(s)| <= 3 * |s|
  {
    if s != [] {
      var pair := High(s[0]) && |s| > 1 && Low(s[1]);
      var rest := if pair then s[2..] else s[1..];
      ThreePerUnit(rest);
      var c := Characters(s)[0];
      assert Characters(s) == [c] + Characters(rest);
      EncodeConcat([c], Characters(rest));
      EncodeOne(c);
      assert !pair ==> c < 0x10000;
      hide Utf8;
    }
  }

  /** Byte `p` starts a character exactly if a whole number of characters comes before it. */
  lemma {:induction false} StartsCharacter(cs: seq<Scalar>, p: nat) returns (m: nat)
    requires p < |Encode(cs)| && !Continues(Encode(cs)[p])
    ensures m < |cs| && p == |Encode(cs[..m])|
  {
    var init, last := cs[..|cs| - 1], Utf8(cs[|cs| - 1]);
    hide Utf8;
    if p < |Encode(init)| {
      m := StartsCharacter(init, p);
      assert init[..m] == cs[..m];
    } else {
      m := |cs| - 1;
      assert Encode(cs)[p] == last[p - |Encode(init)|];
    }
  }

  /** What is kept, and how many bytes are reported cut; `Whole` is the text itself. */
  datatype Truncated = Whole | Cut(kept: seq<Byte>, omitted: nat)

  method TruncateString(s: seq<Unit>, limit: nat) returns (r: Truncated, ghost m: nat)
    ensures r.Whole? <==> |Bytes(s)| <= limit
    ensures r.Cut? ==>
      && m < |Characters(s)|
      && r.kept == Encode(Characters(s)[..m])
      && |r.kept| <= limit < |Encode(Characters(s)[..m + 1])|
      && |r.kept| + r.omitted == |Bytes(s)|
  {
    ThreePerUnit(s);
    m := 0;
    if |s| * 3 <= limit { return Whole, 0; }
    var buf := Bytes(s);
    if |buf| <= limit { return Whole, 0; }
    ghost var cs := Characters(s);
    var end := limit;
    while end > 0 && Continues(buf[end])
      invariant 0 <= end <= limit < |buf|
      invariant forall i :: end < i <= limit ==> Continues(buf[i])
    {
      end := end - 1;
    }
    if end == 0 { FirstStarts(cs); }
    m := StartsCharacter(cs, end);
    KeptIsPrefix(cs, m, limit);
    r := Cut(buf[..end], |buf| - end);
  }

  lemma FirstStarts(cs: seq<Scalar>)
    requires cs != []
    ensures |Encode(cs)| > 0 && !Continues(Encode(cs)[0])
  {
    assert cs == [cs[0]] + cs[1..];
    EncodeConcat([cs[0]], cs[1..]);
    EncodeOne(cs[0]);
  }

  /** With no character starting from there to the limit, the next one does not fit. */
  lemma {:induction false} KeptIsPrefix(cs: seq<Scalar>, m: nat, limit: nat)
    requires m < |cs| && |Encode(cs[..m])| <= limit < |Encode(cs)|
    requires forall i :: |Encode(cs[..m])| < i <= limit ==> Continues(Encode(cs)[i])
    ensures Encode(cs)[..|Encode(cs[..m])|] == Encode(cs[..m])
    ensures limit < |Encode(cs[..m + 1])|
  {
    hide Utf8;
    assert cs == cs[..m] + cs[m..];
    EncodeConcat(cs[..m], cs[m..]);
    var next := |Encode(cs[..m + 1])|;
    assert cs[..m + 1] == cs[..m] + [cs[m]];
    EncodeConcat(cs[..m], [cs[m]]);
    EncodeOne(cs[m]);
    if m + 1 < |cs| { NextStarts(cs, m + 1); } else { assert cs[..m + 1] == cs; }
  }

  lemma NextStarts(cs: seq<Scalar>, k: nat)
    requires k < |cs|
    ensures |Encode(cs[..k])| < |Encode(cs)| && !Continues(Encode(cs)[|Encode(cs[..k])|])
  {
    hide Utf8, Continues;
    var rest := cs[k..];
    assert cs == cs[..k] + rest;
    EncodeConcat(cs[..k], rest);
    FirstStarts(rest);
    assert Encode(cs)[|Encode(cs[..k])|] == Encode(rest)[0];
  }

  lemma {:induction false} LongerIsLonger(cs: seq<Scalar>, m: nat, n: nat)
    requires m <= n <= |cs|
    ensures |Encode(cs[..m])| <= |Encode(cs[..n])|
  {
    assert cs[..n] == cs[..m] + cs[m..n];
    EncodeConcat(cs[..m], cs[m..n]);
  }

  /** The kept characters are the longest prefix whose bytes fit. */
  lemma KeptIsLongest(cs: seq<Scalar>, m: nat, limit: nat, n: nat)
    requires m < |cs| && |Encode(cs[..m])| <= limit < |Encode(cs[..m + 1])| && n <= |cs|
    ensures |Encode(cs[..n])| <= limit <==> n <= m
  {
    if n <= m { LongerIsLonger(cs, n, m); } else { LongerIsLonger(cs, m + 1, n); }
  }
}
