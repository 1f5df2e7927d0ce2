/** The hand-written Base64 encoder (src/proxy/http_connect.rs) against a decoder
    for section 4 of RFC 4648. */
module Base64 {
  import opened Common

  const PAD: byte := '=' as int

  /** The alphabet: A-Z, a-z, 0-9, plus, slash. */
  function Digit(i: nat): (c: byte)
    requires i < 64
    ensures c != PAD
  {
    if i < 26 then 0x41 + i
    else if i < 52 then 0x61 + (i - 26)
    else if i < 62 then 0x30 + (i - 52)
    else if i == 62 then 0x2B
    else 0x2F
  }

  /** The table of section 4 of RFC 4648, read backwards. */
  function DigitValue(c: byte): (r: Option<nat>)
    ensures r.Some? ==> r.value < 64
  {
    if 'A' as int <= c <= 'Z' as int then Some(c - 'A' as int)
    else if 'a' as int <= c <= 'z' as int then Some(c - 'a' as int + 26)
    else if '0' as int <= c <= '9' as int then Some(c - '0' as int + 52)
    else if c == '+' as int then Some(62)
    else if c == '/' as int then Some(63)
    else None
  }

  lemma DigitRoundTrip(i: nat)
    requires i < 64
    ensures DigitValue(Digit(i)) == Some(i)
  {
  }

  // ---- Encoding --------------------------------------------------------------------

  /** One chunk of one to three bytes, as four characters. */
  function EncodeChunk(b: bytes): (r: bytes)
    requires 1 <= |b| <= 3
    ensures |r| == 4
  {
    var b1: int := if |b| > 1 then b[1] else 0;
    var b2: int := if |b| > 2 then b[2] else 0;
    var n := (b[0] as int) * 0x1_0000 + b1 * 0x100 + b2;
    [Digit(n / 0x4_0000), Digit(n / 0x1000 % 64),
     if |b| > 1 then Digit(n / 64 % 64) else PAD,
     if |b| > 2 then Digit(n % 64) else PAD]
  }

  function Encode(input: bytes): bytes {
    if input == [] then []
    else if |input| <= 3 then EncodeChunk(input)
    else EncodeChunk(input[..3]) + Encode(input[3..])
  }

  /** One turn of the loop: four pushes. */
  method PushChunk(out: bytes, chunk: bytes) returns (out': bytes)
    requires 1 <= |chunk| <= 3
    ensures out' == out + EncodeChunk(chunk)
  {
    hide Digit;
    var b0: int, b1: int, b2: int := chunk[0], 0, 0;
    if |chunk| > 1 { b1 := chunk[1]; }
    if |chunk| > 2 { b2 := chunk[2]; }
    var n := b0 * 0x1_0000 + b1 * 0x100 + b2;
    out' := out + [Digit(n / 0x4_0000)];
    out' := out' + [Digit(n / 0x1000 % 64)];
    out' := out' + [if |chunk| > 1 then Digit(n / 64 % 64) else PAD];
    out' := out' + [if |chunk| > 2 then Digit(n % 64) else PAD];
  }

  /** `base64_encode`: the loop over chunks. */
  method Base64Encode(input: bytes) returns (out: bytes)
    ensures out == Encode(input)
  {
    hide EncodeChunk;
    out := [];
    var i := 0;
    while i < |input|
      invariant 0 <= i <= |input|
      invariant out + Encode(input[i..]) == Encode(input)
    {
      var j := if i + 3 <= |input| then i + 3 else |input|;
      var chunk := input[i..j];
      ghost var rest := input[i..];
      assert if |rest| <= 3 then chunk == rest else chunk == rest[..3];
      assert rest[j - i..] == input[j..];
      assert Encode(rest) == EncodeChunk(chunk) + Encode(input[j..]);
      assert out + (EncodeChunk(chunk) + Encode(input[j..])) == (out + EncodeChunk(chunk)) + Encode(input[j..]);
      out := PushChunk(out, chunk);
      i := j;
    }
    assert out + Encode([]) == out;
  }

  // ---- Decoding ----------------------------------------------------------------------

  /** One group of four characters. Padding is allowed only in the `last` group,
      and only over bits that are zero. */
  function DecodeGroup(g: bytes, last: bool): Option<bytes>
    requires |g| == 4
  {
    var d0, d1, d2, d3 := DigitValue(g[0]), DigitValue(g[1]), DigitValue(g[2]), DigitValue(g[3]);
    if d0.None? || d1.None? then None
    else
      var hi := d0.value * 64 + d1.value;
      if g[2] == PAD then
        if last && g[3] == PAD && hi % 16 == 0 then Some([hi / 16]) else None
      else if d2.None? then None
      else if g[3] == PAD then
        if last && d2.value % 4 == 0 then Some([hi / 16, hi % 16 * 16 + d2.value / 4]) else None
      else if d3.None? then None
      else Some([hi / 16, hi % 16 * 16 + d2.value / 4, d2.value % 4 * 64 + d3.value])
  }

  function Decode(s: bytes): Option<bytes> {
    if s == [] then Some([])
    else if |s| < 4 then None
    else
      var head := DecodeGroup(s[..4], |s| == 4);
      var tail := Decode(s[4..]);
      if head.None? || tail.None? then None else Some(head.value + tail.value)
  }

  /** The four characters in terms of the bytes. */
  lemma ChunkDigits(b: bytes, b1: int, b2: int)
    requires 1 <= |b| <= 3
    requires b1 == (if |b| > 1 then b[1] else 0) && b2 == (if |b| > 2 then b[2] else 0)
    ensures
      EncodeChunk(b) == [Digit(b[0] / 4), Digit(b[0] % 4 * 16 + b1 / 16),
                         if |b| > 1 then Digit(b1 % 16 * 4 + b2 / 64) else PAD,
                         if |b| > 2 then Digit(b2 % 64) else PAD]
  {
    hide Digit;
    SplitBits(b[0], b1, b2);
  }

  lemma ChunkRoundTrip(b: bytes, last: bool)
    requires 1 <= |b| <= 3 && (|b| < 3 ==> last)
    ensures DecodeGroup(EncodeChunk(b), last) == Some(b)
  {
    hide EncodeChunk, Digit, DigitValue;
    var b1: int := if |b| > 1 then b[1] else 0;
    var b2: int := if |b| > 2 then b[2] else 0;
    ChunkDigits(b, b1, b2);
    DigitRoundTrip(b[0] / 4);
    DigitRoundTrip(b[0] % 4 * 16 + b1 / 16);
    DigitRoundTrip(b1 % 16 * 4 + b2 / 64);
    DigitRoundTrip(b2 % 64);
    match |b|
    case 1 => assert b == [b[0]];
    case 2 => assert b == [b[0], b[1]];
    case _ => assert b == [b[0], b[1], b[2]];
  }

  /** The four six-bit digits of three octets. */
  lemma SplitBits(b0: byte, b1: int, b2: int)
    requires 0 <= b1 < 256 && 0 <= b2 < 256
    ensures
      var n := (b0 as int) * 0x1_0000 + b1 * 0x100 + b2;
      && n / 0x4_0000 == b0 / 4
      && n / 0x1000 % 64 == b0 % 4 * 16 + b1 / 16
      && n / 64 % 64 == b1 % 16 * 4 + b2 / 64
      && n % 64 == b2 % 64
  {
    var n := (b0 as int) * 0x1_0000 + b1 * 0x100 + b2;
    var q0, r0, q1, r1, q2, r2 := b0 / 4, b0 % 4, b1 / 16, b1 % 16, b2 / 64, b2 % 64;
    Quotient(n, 0x4_0000, q0, r0 * 0x1_0000 + b1 * 0x100 + b2);
    Quotient(n, 0x1000, q0 * 64 + r0 * 16 + q1, r1 * 0x100 + b2);
    Quotient(q0 * 64 + r0 * 16 + q1, 64, q0, r0 * 16 + q1);
    Quotient(n, 64, b0 * 1024 + q1 * 64 + r1 * 4 + q2, r2);
    Quotient(b0 * 1024 + q1 * 64 + r1 * 4 + q2, 64, b0 * 16 + q1, r1 * 4 + q2);
  }

  lemma {:induction false} EncodeLength(input: bytes)
    ensures |Encode(input)| == 4 * ((|input| + 2) / 3)
  {
    hide EncodeChunk;
    if |input| > 3 {
      EncodeLength(input[3..]);
    }
  }

  /** The decoder undoes the encoder on every byte string. */
  lemma {:induction false} DecodeEncode(input: bytes)
    ensures Decode(Encode(input)) == Some(input)
  {
    if input == [] {
    } else if |input| <= 3 {
      ChunkRoundTrip(input, true);
      assert Encode(input)[4..] == [] && Encode(input)[..4] == Encode(input);
      assert input + [] == input;
    } else {
      var head, tail := EncodeChunk(input[..3]), Encode(input[3..]);
      EncodeLength(input[3..]);
      ChunkRoundTrip(input[..3], false);
      DecodeEncode(input[3..]);
      assert (head + tail)[..4] == head && (head + tail)[4..] == tail;
      assert input[..3] + input[3..] == input;
    }
  }

  /** How many of the characters for `n` bytes are padding. */
  function PadCount(n: nat): nat {
    if n % 3 == 0 then 0 else 3 - n % 3
  }

  lemma ChunkPadding(b: bytes, i: nat)
    requires 1 <= |b| <= 3 && i < 4
    ensures EncodeChunk(b)[i] == PAD <==> i >= 4 - PadCount(|b|)
  {
  }

  /** Padding: none, two or one character, at the very end, as the length modulo
      three dictates; nowhere else. */
  lemma {:induction false} PaddingExactlyAtEnd(input: bytes, i: nat)
    requires i < |Encode(input)|
    ensures Encode(input)[i] == PAD <==> i >= |Encode(input)| - PadCount(|input|)
  {
    hide EncodeChunk;
    if |input| <= 3 {
      ChunkPadding(input, i);
    } else {
      EncodeLength(input[3..]);
      assert PadCount(|input|) == PadCount(|input[3..]|);
      if i >= 4 {
        PaddingExactlyAtEnd(input[3..], i - 4);
      } else {
        ChunkPadding(input[..3], i);
      }
    }
  }

  lemma ChunkPrintable(b: bytes, i: nat)
    requires 1 <= |b| <= 3 && i < 4
    ensures EncodeChunk(b)[i] >= 0x2B
  {
  }

  /** No control character and no blank ever appears. */
  lemma {:induction false} Printable(input: bytes, i: nat)
    requires i < |Encode(input)|
    ensures Encode(input)[i] >= 0x2B
  {
    hide EncodeChunk;
    if |input| <= 3 {
      ChunkPrintable(input, i);
    } else if i >= 4 {
      Printable(input[3..], i - 4);
    } else {
      ChunkPrintable(input[..3], i);
    }
  }
}
