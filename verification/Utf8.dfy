/** Well-formed UTF-8, as a validator sees it and as an encoder writes it. */
module Utf8 {
  import opened Common

  /** Well-formed UTF-8, by the table in section 4 of RFC 3629: the length of the
      first character, 0 if there is none. */
  function CharLength(s: bytes): (n: nat)
    ensures n <= |s|
  {
    if s == [] then 0
    else if s[0] < 0x80 then 1
    else if 0xC2 <= s[0] <= 0xDF then if Continued(s, 1) then 2 else 0
    else if 0xE0 <= s[0] <= 0xEF then
      if Continued(s, 2) && (s[0] == 0xE0 ==> s[1] >= 0xA0) && (s[0] == 0xED ==> s[1] <= 0x9F) then 3 else 0
    else if 0xF0 <= s[0] <= 0xF4 then
      if Continued(s, 3) && (s[0] == 0xF0 ==> s[1] >= 0x90) && (s[0] == 0xF4 ==> s[1] <= 0x8F) then 4 else 0
    else 0
  }

  predicate Continued(s: bytes, n: nat) {
    |s| > n && forall i | 1 <= i <= n :: 0x80 <= s[i] <= 0xBF
  }

  predicate IsUtf8(s: bytes) {
    s == [] || (CharLength(s) > 0 && IsUtf8(s[CharLength(s)..]))
  }

  lemma {:induction false} AsciiIsUtf8(s: bytes)
    requires forall i | 0 <= i < |s| :: s[i] < 0x80
    ensures IsUtf8(s)
  {
    if s != [] {
      AsciiIsUtf8(s[1..]);
    }
  }

  // ---- Against the encoder ------------------------------------------------------------

  /** A Unicode scalar value: a code point that is not a surrogate. */
  predicate IsScalar(c: nat) {
    c <= 0x10FFFF && !(0xD800 <= c <= 0xDFFF)
  }

  /** The encoding of section 3 of RFC 3629. */
  function EncodeScalar(c: nat): bytes
    requires IsScalar(c)
  {
    if c < 0x80 then [c]
    else if c < 0x800 then [0xC0 + c / 64, 0x80 + c % 64]
    else if c < 0x1_0000 then [0xE0 + c / 4096, 0x80 + c / 64 % 64, 0x80 + c % 64]
    else [0xF0 + c / 0x4_0000, 0x80 + c / 4096 % 64, 0x80 + c / 64 % 64, 0x80 + c % 64]
  }

  function EncodeAll(cs: seq<nat>): bytes
    requires forall i | 0 <= i < |cs| :: IsScalar(cs[i])
  {
    if cs == [] then [] else EncodeScalar(cs[0]) + EncodeAll(cs[1..])
  }

  /** Taking a number apart into six-bit digits and putting it together again. */
  lemma TwoDigits(hi: nat, lo: nat)
    requires lo < 64
    ensures (hi * 64 + lo) / 64 == hi && (hi * 64 + lo) % 64 == lo
  {
    Quotient(hi * 64 + lo, 64, hi, lo);
  }

  lemma ThreeDigits(hi: nat, mid: nat, lo: nat)
    requires mid < 64 && lo < 64
    ensures
      var c := hi * 4096 + mid * 64 + lo;
      c / 4096 == hi && c / 64 % 64 == mid && c % 64 == lo
  {
    var c := hi * 4096 + mid * 64 + lo;
    Quotient(c, 4096, hi, mid * 64 + lo);
    Quotient(c, 64, hi * 64 + mid, lo);
    TwoDigits(hi, mid);
  }

  lemma FourDigits(top: nat, hi: nat, mid: nat, lo: nat)
    requires hi < 64 && mid < 64 && lo < 64
    ensures
      var c := top * 0x4_0000 + hi * 4096 + mid * 64 + lo;
      c / 0x4_0000 == top && c / 4096 % 64 == hi && c / 64 % 64 == mid && c % 64 == lo
  {
    var c := top * 0x4_0000 + hi * 4096 + mid * 64 + lo;
    Quotient(c, 0x4_0000, top, hi * 4096 + mid * 64 + lo);
    Quotient(c, 4096, top * 64 + hi, mid * 64 + lo);
    Quotient(c, 64, top * 4096 + hi * 64 + mid, lo);
    Quotient(top * 4096 + hi * 64 + mid, 64, top * 64 + hi, mid);
    TwoDigits(top, hi);
  }

  /** What passes for a character is the encoding of a scalar value... */
  lemma CharIsScalar(s: bytes) returns (c: nat)
    requires CharLength(s) > 0
    ensures IsScalar(c) && s[..CharLength(s)] == EncodeScalar(c)
  {
    var n := CharLength(s);
    var b0: int, b1: int := s[0], if n > 1 then s[1] else 0;
    var b2: int, b3: int := if n > 2 then s[2] else 0, if n > 3 then s[3] else 0;
    match n
    case 1 => c := b0;
    case 2 =>
      c := (b0 - 0xC0) * 64 + (b1 - 0x80);
      TwoDigits(b0 - 0xC0, b1 - 0x80);
    case 3 =>
      c := (b0 - 0xE0) * 4096 + (b1 - 0x80) * 64 + (b2 - 0x80);
      ThreeDigits(b0 - 0xE0, b1 - 0x80, b2 - 0x80);
    case _ =>
      c := (b0 - 0xF0) * 0x4_0000 + (b1 - 0x80) * 4096 + (b2 - 0x80) * 64 + (b3 - 0x80);
      FourDigits(b0 - 0xF0, b1 - 0x80, b2 - 0x80, b3 - 0x80);
  }

  /** ... and the encoding of every scalar value does. */
  lemma ScalarIsChar(c: nat, rest: bytes)
    requires IsScalar(c)
    ensures CharLength(EncodeScalar(c) + rest) == |EncodeScalar(c)|
  {
    var e := EncodeScalar(c);
    var s := e + rest;
    assert forall i | 0 <= i < |e| :: s[i] == e[i];
  }

  /** The validator, exactly: it accepts the encodings of the strings of scalar values. */
  lemma IsUtf8Iff(s: bytes)
    ensures IsUtf8(s) <==> exists cs: seq<nat> :: Encodes(cs, s)
  {
    hide IsUtf8, Encodes;
    if IsUtf8(s) {
      var cs := Scalars(s);
    }
    if cs: seq<nat> :| Encodes(cs, s) {
      EncodedIsUtf8(cs, s);
    }
  }

  predicate Encodes(cs: seq<nat>, s: bytes) {
    (forall i | 0 <= i < |cs| :: IsScalar(cs[i])) && s == EncodeAll(cs)
  }

  lemma {:induction false} Scalars(s: bytes) returns (cs: seq<nat>)
    requires IsUtf8(s)
    ensures Encodes(cs, s)
    decreases |s|
  {
    hide CharLength, EncodeScalar, IsScalar;
    cs := [];
    if s != [] {
      var n := CharLength(s);
      var c := CharIsScalar(s);
      var more := Scalars(s[n..]);
      cs := [c] + more;
      assert cs[1..] == more && s == s[..n] + s[n..];
    }
  }

  lemma {:induction false} EncodedIsUtf8(cs: seq<nat>, s: bytes)
    requires Encodes(cs, s)
    ensures IsUtf8(s)
  {
    hide CharLength, IsScalar;
    if cs != [] {
      var rest := EncodeAll(cs[1..]);
      ScalarIsChar(cs[0], rest);
      EncodedIsUtf8(cs[1..], rest);
      assert s[|EncodeScalar(cs[0])|..] == rest;
    }
  }
}
