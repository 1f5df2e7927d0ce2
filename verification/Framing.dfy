/**
 Stream framing for the TCP transport (src/framing.rs) and the two shipped
 profiles (README.md).

 The profiles live in a sibling crate; they are modelled from the documented
 wire formats. Three details are assumptions: a frame is padded up to the next
 multiple of the bucket counted from its first byte, a header is judged once it
 is complete, and a record longer than `limit` (below 2^32) is refused on both
 sides.
 */
module Framing {
  import opened Common

  datatype Profile =
    | Vanilla(limit: nat)
    | AmneziaJunk(limit: nat, magic: bytes, preambleLen: nat, bucket: nat)

  predicate ProfileOk(p: Profile) {
    p.limit < 0x1_0000_0000 && (p.AmneziaJunk? ==> |p.magic| == 4)
  }

  // ---- Numbers -----------------------------------------------------------------

  function U32(n: nat): (b: bytes)
    requires n < 0x1_0000_0000
    ensures |b| == 4
  {
    [n / 0x100_0000, n / 0x1_0000 % 256, n / 256 % 256, n % 256]
  }

  function FromU32(b: bytes): (n: nat)
    requires |b| == 4
    ensures n < 0x1_0000_0000
  {
    (b[0] as int) * 0x100_0000 + (b[1] as int) * 0x1_0000 + (b[2] as int) * 256 + b[3]
  }

  lemma U32RoundTrip(n: nat)
    requires n < 0x1_0000_0000
    ensures FromU32(U32(n)) == n
  {
    var hi, lo := n / 0x1_0000, n % 0x1_0000;
    assert n / 0x100_0000 == hi / 256 && n / 0x1_0000 % 256 == hi % 256;
    assert n / 256 % 256 == lo / 256 && n % 256 == lo % 256;
  }

  // ---- One frame ----------------------------------------------------------------

  function Header(p: Profile): nat {
    if p.Vanilla? then 4 else 8
  }

  function PadLen(p: Profile, len: nat): nat {
    if p.Vanilla? || p.bucket <= 1 then 0
    else if (8 + len) % p.bucket == 0 then 0
    else p.bucket - (8 + len) % p.bucket
  }

  /** `frame_out`, with the random padding as a parameter. */
  function FrameOut(p: Profile, record: bytes, pad: bytes): bytes
    requires ProfileOk(p) && |record| <= p.limit && |pad| == PadLen(p, |record|)
  {
    (if p.Vanilla? then [] else p.magic) + U32(|record|) + record + pad
  }

  /** Padding is less than a bucket, and with it an AmneziaJunk frame is a multiple of
      the bucket; a Vanilla frame is its length and its record. */
  lemma FrameSize(p: Profile, record: bytes, pad: bytes)
    requires ProfileOk(p) && |record| <= p.limit && |pad| == PadLen(p, |record|)
    ensures p.Vanilla? ==> FrameOut(p, record, pad) == U32(|record|) + record
    ensures p.AmneziaJunk? && p.bucket > 0 ==> |FrameOut(p, record, pad)| % p.bucket == 0 && |pad| < p.bucket
    ensures p.AmneziaJunk? ==> FrameOut(p, record, pad)[..4] == p.magic && FrameOut(p, record, pad)[8..8 + |record|] == record
  {
    if p.AmneziaJunk? && p.bucket > 1 {
      var size := 8 + |record|;
      NextMultiple(size, p.bucket);
      assert |FrameOut(p, record, pad)| == size + |pad|;
    }
  }

  lemma NextMultiple(n: nat, d: nat)
    requires d > 0
    ensures (n + (d - n % d)) % d == 0
  {
    var q := n / d;
    assert n + (d - n % d) == d * (q + 1);
    Quotient(n + (d - n % d), d, q + 1, 0);
  }

  datatype FrameIn = Record(record: bytes, rest: bytes) | NeedMore | Invalid

  /** `frame_in` on the accumulation buffer: the first frame and what follows it. */
  function Parse(p: Profile, buf: bytes): FrameIn
    requires ProfileOk(p)
  {
    var h := Header(p);
    if |buf| < h then NeedMore
    else if p.AmneziaJunk? && buf[..4] != p.magic then Invalid
    else
      var len := FromU32(buf[h - 4..h]);
      if len > p.limit then Invalid
      else if |buf| < h + len + PadLen(p, len) then NeedMore
      else Record(buf[h..h + len], buf[h + len + PadLen(p, len)..])
  }

  lemma ParseNothing(p: Profile)
    requires ProfileOk(p)
    ensures Parse(p, []) == NeedMore
  {
  }

  /** More bytes never change a verdict that has been reached. */
  lemma ParseStable(p: Profile, buf: bytes, more: bytes)
    requires ProfileOk(p)
    ensures
      match Parse(p, buf)
      case Record(r, rest) => Parse(p, buf + more) == Record(r, rest + more)
      case Invalid => Parse(p, buf + more) == Invalid
      case NeedMore => true
  {
    hide FromU32, PadLen;
    var h := Header(p);
    if |buf| >= h {
      assert (buf + more)[h - 4..h] == buf[h - 4..h];
      assert (buf + more)[..4] == buf[..4];
      var len := FromU32(buf[h - 4..h]);
      var total := h + len + PadLen(p, len);
      if len <= p.limit && |buf| >= total {
        assert (buf + more)[h..h + len] == buf[h..h + len];
        assert (buf + more)[total..] == buf[total..] + more;
      }
    }
  }

  /** A frame parses back to its record, whatever follows it. */
  lemma ParseFrame(p: Profile, record: bytes, pad: bytes, more: bytes)
    requires ProfileOk(p) && |record| <= p.limit && |pad| == PadLen(p, |record|)
    ensures Parse(p, FrameOut(p, record, pad) + more) == Record(record, more)
  {
    var all := FrameOut(p, record, pad) + more;
    var h := Header(p);
    U32RoundTrip(|record|);
    hide FromU32, U32, PadLen;
    assert all[h - 4..h] == U32(|record|);
    assert p.AmneziaJunk? ==> all[..4] == p.magic;
    assert all[h..h + |record|] == record;
    assert all[h + |record| + |pad|..] == more;
  }

  /** No proper prefix of a frame is taken for a frame, or for a broken one. */
  lemma ParsePrefix(p: Profile, record: bytes, pad: bytes, n: nat)
    requires ProfileOk(p) && |record| <= p.limit && |pad| == PadLen(p, |record|)
    requires n < |FrameOut(p, record, pad)|
    ensures Parse(p, FrameOut(p, record, pad)[..n]) == NeedMore
  {
    var frame := FrameOut(p, record, pad);
    var cut := frame[..n];
    ParseStable(p, cut, frame[n..]);
    assert cut + frame[n..] == frame;
    ParseFrame(p, record, pad, []);
    assert frame + [] == frame;
    assert |frame[n..]| > 0;
  }

  lemma U32Digits(b: bytes)
    requires |b| == 4
    ensures U32(FromU32(b)) == b
  {
    var hi, lo := (b[0] as int) * 256 + b[1], (b[2] as int) * 256 + b[3];
    var n := FromU32(b);
    Quotient(n, 0x1_0000, hi, lo);
    Quotient(n, 0x100_0000, b[0], (b[1] as int) * 0x1_0000 + lo);
    Quotient(n, 256, hi * 256 + b[2], b[3]);
    Quotient(hi, 256, b[0], b[1]);
    Quotient(hi * 256 + b[2], 256, hi, b[2]);
  }

  /** The most significant octet comes first. */
  lemma U32BigEndian()
    ensures U32(0x0102_0304) == [0x01, 0x02, 0x03, 0x04]
  {
  }

  /** What the parser takes off is a frame of the record it reports... */
  lemma ParsedIsFrame(p: Profile, buf: bytes) returns (pad: bytes)
    requires ProfileOk(p) && Parse(p, buf).Record?
    ensures |Parse(p, buf).record| <= p.limit && |pad| == PadLen(p, |Parse(p, buf).record|)
    ensures buf == FrameOut(p, Parse(p, buf).record, pad) + Parse(p, buf).rest
  {
    var h := Header(p);
    var len := FromU32(buf[h - 4..h]);
    var total := h + len + PadLen(p, len);
    pad := buf[h + len..total];
    U32Digits(buf[h - 4..h]);
    hide FromU32, U32, PadLen;
    assert buf == buf[..h - 4] + buf[h - 4..h] + buf[h..h + len] + pad + buf[total..];
  }

  /** ... what it waits for, once it has a header, is the rest of a frame... */
  lemma AwaitedIsFrame(p: Profile, buf: bytes) returns (record: bytes, pad: bytes)
    requires ProfileOk(p) && Parse(p, buf).NeedMore? && |buf| >= Header(p)
    ensures |record| <= p.limit && |pad| == PadLen(p, |record|)
    ensures buf < FrameOut(p, record, pad)
  {
    var h := Header(p);
    var len := FromU32(buf[h - 4..h]);
    U32Digits(buf[h - 4..h]);
    hide FromU32, U32, PadLen;
    var n := len + PadLen(p, len);
    var body := (buf[h..] + seq(n, _ => 0))[..n];
    record, pad := body[..len], body[len..];
    assert buf[..h] == buf[..h - 4] + buf[h - 4..h];
    assert record + pad == body && buf[h..] < body;
    assert FrameOut(p, record, pad) == buf[..h] + body;
    assert buf == buf[..h] + buf[h..];
  }

  /** ... and what it refuses begins with no frame, whatever follows. */
  lemma RefusedIsNoFrame(p: Profile, buf: bytes, more: bytes, record: bytes, pad: bytes, rest: bytes)
    requires ProfileOk(p) && |record| <= p.limit && |pad| == PadLen(p, |record|)
    requires Parse(p, buf).Invalid?
    ensures buf + more != FrameOut(p, record, pad) + rest
  {
    ParseStable(p, buf, more);
    ParseFrame(p, record, pad, rest);
  }

  // ---- A whole stream --------------------------------------------------------------

  /** An encrypted session, seen from the outside: what the two ends make of the
      `n`-th message. Serialisation is part of it. */
  datatype Cipher<!E> = Cipher(enc: (nat, E) -> bytes, dec: (nat, bytes) -> Option<E>)

  /** Decryption undoes encryption. */
  ghost predicate CipherOk<E(!new)>(c: Cipher<E>) {
    forall n, e :: c.dec(n, c.enc(n, e)) == Some(e)
  }

  /** There are such sessions. */
  lemma PlainCipherOk() returns (c: Cipher<bytes>)
    ensures CipherOk(c)
  {
    c := Cipher((n, e) => e, (n, b) => Some(b));
  }

  /** How a stream ends: on a frame boundary, inside a frame, or with bytes that
      no frame starts with, or with a record that does not decrypt. */
  datatype End = AtBoundary | MidFrame | Malformed | Undecryptable

  datatype Decoded<E> = Decoded(messages: seq<E>, end: End)

  /** What a byte stream means, read from its beginning in one piece. */
  function DecodeAll<E>(p: Profile, c: Cipher<E>, n: nat, stream: bytes): Decoded<E>
    requires ProfileOk(p)
    decreases |stream|
  {
    match Parse(p, stream)
    case NeedMore => Decoded([], if stream == [] then AtBoundary else MidFrame)
    case Invalid => Decoded([], Malformed)
    case Record(r, rest) =>
      match c.dec(n, r)
      case None => Decoded([], Undecryptable)
      case Some(e) =>
        var tail := DecodeAll(p, c, n + 1, rest);
        tail.(messages := [e] + tail.messages)
  }

  /** An envelope and the padding its frame happened to get. */
  datatype Outgoing<E> = Outgoing(message: E, pad: bytes)

  /** The record is within the limit, and the padding is what it needs. */
  predicate Sendable<E>(p: Profile, c: Cipher<E>, n: nat, o: Outgoing<E>) {
    |c.enc(n, o.message)| <= p.limit && |o.pad| == PadLen(p, |c.enc(n, o.message)|)
  }

  predicate Fits<E>(p: Profile, c: Cipher<E>, n: nat, out: seq<Outgoing<E>>)
    decreases |out|
  {
    out == [] || (Sendable(p, c, n, out[0]) && Fits(p, c, n + 1, out[1..]))
  }

  function Messages<E>(out: seq<Outgoing<E>>): seq<E> {
    if out == [] then [] else [out[0].message] + Messages(out[1..])
  }

  /** The frame `send_frame` writes for the `n`-th envelope. */
  function SendFrame<E>(p: Profile, c: Cipher<E>, n: nat, o: Outgoing<E>): bytes
    requires ProfileOk(p) && Sendable(p, c, n, o)
  {
    FrameOut(p, c.enc(n, o.message), o.pad)
  }

  /** All the frames of a list of envelopes, from the `n`-th on. */
  function WireBytes<E>(p: Profile, c: Cipher<E>, n: nat, out: seq<Outgoing<E>>): bytes
    requires ProfileOk(p) && Fits(p, c, n, out)
    decreases |out|
  {
    if out == [] then [] else SendFrame(p, c, n, out[0]) + WireBytes(p, c, n + 1, out[1..])
  }

  lemma DecodeFirst<E(!new)>(p: Profile, c: Cipher<E>, n: nat, o: Outgoing<E>, rest: bytes)
    requires ProfileOk(p) && CipherOk(c) && Sendable(p, c, n, o)
    ensures
      var tail := DecodeAll(p, c, n + 1, rest);
      DecodeAll(p, c, n, SendFrame(p, c, n, o) + rest) == Decoded([o.message] + tail.messages, tail.end)
  {
    assert c.dec(n, c.enc(n, o.message)) == Some(o.message);
    ParseFrame(p, c.enc(n, o.message), o.pad, rest);
  }

  lemma DecodeCut<E(!new)>(p: Profile, c: Cipher<E>, n: nat, o: Outgoing<E>, cut: nat)
    requires ProfileOk(p) && CipherOk(c) && Sendable(p, c, n, o)
    requires cut < |SendFrame(p, c, n, o)|
    ensures DecodeAll(p, c, n, SendFrame(p, c, n, o)[..cut]) == Decoded([], if cut == 0 then AtBoundary else MidFrame)
  {
    assert c.dec(n, c.enc(n, o.message)) == Some(o.message);
    ParsePrefix(p, c.enc(n, o.message), o.pad, cut);
  }

  /** What one end writes, the other reads: the envelopes, in order, and nothing
      left over. */
  lemma {:induction false} StreamRoundTrip<E(!new)>(p: Profile, c: Cipher<E>, n: nat, out: seq<Outgoing<E>>)
    requires ProfileOk(p) && CipherOk(c) && Fits(p, c, n, out)
    ensures DecodeAll(p, c, n, WireBytes(p, c, n, out)) == Decoded(Messages(out), AtBoundary)
    decreases |out|
  {
    if out != [] {
      DecodeFirst(p, c, n, out[0], WireBytes(p, c, n + 1, out[1..]));
      StreamRoundTrip(p, c, n + 1, out[1..]);
    }
  }

  /** The first `k` frames, as a part of the whole. */
  lemma {:induction false} WirePrefix<E(!new)>(p: Profile, c: Cipher<E>, n: nat, out: seq<Outgoing<E>>, k: nat)
    requires ProfileOk(p) && CipherOk(c) && Fits(p, c, n, out) && 0 < k <= |out|
    ensures Fits(p, c, n + 1, out[1..][..k - 1]) ==>
              && Fits(p, c, n, out[..k])
              && WireBytes(p, c, n, out[..k]) == SendFrame(p, c, n, out[0]) + WireBytes(p, c, n + 1, out[1..][..k - 1])
              && Messages(out[..k]) == [out[0].message] + Messages(out[1..][..k - 1])
  {
    assert out[..k][1..] == out[1..][..k - 1];
  }

  /** `k` frames fit before the cut, and what comes out is their envelopes. */
  ghost predicate CutAfter<E(!new)>(p: Profile, c: Cipher<E>, n: nat, out: seq<Outgoing<E>>, cut: nat, k: nat)
    requires ProfileOk(p) && Fits(p, c, n, out) && cut <= |WireBytes(p, c, n, out)|
  {
    && k <= |out| && Fits(p, c, n, out[..k]) && |WireBytes(p, c, n, out[..k])| <= cut
    && (k < |out| ==> Fits(p, c, n, out[..k + 1]) && cut < |WireBytes(p, c, n, out[..k + 1])|)
    && DecodeAll(p, c, n, WireBytes(p, c, n, out)[..cut])
       == Decoded(Messages(out[..k]), if cut == |WireBytes(p, c, n, out[..k])| then AtBoundary else MidFrame)
  }

  lemma CutInFirst<E(!new)>(p: Profile, c: Cipher<E>, n: nat, out: seq<Outgoing<E>>, cut: nat)
    requires ProfileOk(p) && CipherOk(c) && Fits(p, c, n, out) && out != []
    requires cut < |SendFrame(p, c, n, out[0])| <= |WireBytes(p, c, n, out)|
    ensures CutAfter(p, c, n, out, cut, 0)
  {
    hide SendFrame, Parse, CipherOk, ProfileOk;
    var frame, rest := SendFrame(p, c, n, out[0]), WireBytes(p, c, n + 1, out[1..]);
    assert (frame + rest)[..cut] == frame[..cut];
    DecodeCut(p, c, n, out[0], cut);
    WirePrefix(p, c, n, out, 1);
    assert out[1..][..0] == [] && out[..0] == [];
  }

  lemma CutInLater<E(!new)>(p: Profile, c: Cipher<E>, n: nat, out: seq<Outgoing<E>>, cut: nat, j: nat)
    requires ProfileOk(p) && CipherOk(c) && Fits(p, c, n, out) && out != []
    requires |SendFrame(p, c, n, out[0])| <= cut <= |WireBytes(p, c, n, out)|
    requires CutAfter(p, c, n + 1, out[1..], cut - |SendFrame(p, c, n, out[0])|, j)
    ensures CutAfter(p, c, n, out, cut, j + 1)
  {
    hide SendFrame, Parse, CipherOk, ProfileOk, DecodeAll;
    var frame, rest := SendFrame(p, c, n, out[0]), WireBytes(p, c, n + 1, out[1..]);
    assert (frame + rest)[..cut] == frame + rest[..cut - |frame|];
    DecodeFirst(p, c, n, out[0], rest[..cut - |frame|]);
    WirePrefix(p, c, n, out, j + 1);
    if j + 1 < |out| {
      WirePrefix(p, c, n, out, j + 2);
    }
  }

  /** Cut the stream anywhere: the envelopes whose frames are complete come out,
      and the end is clean exactly when the cut is between two frames. */
  lemma {:induction false} TruncatedStream<E(!new)>(p: Profile, c: Cipher<E>, n: nat, out: seq<Outgoing<E>>, cut: nat)
    returns (k: nat)
    requires ProfileOk(p) && CipherOk(c) && Fits(p, c, n, out)
    requires cut <= |WireBytes(p, c, n, out)|
    ensures CutAfter(p, c, n, out, cut, k)
    decreases |out|
  {
    if out == [] {
      k := 0;
      DecodeNothing(p, c, n);
    } else {
      hide SendFrame, Parse, CipherOk, ProfileOk, CutAfter;
      var frame := SendFrame(p, c, n, out[0]);
      if cut < |frame| {
        k := 0;
        CutInFirst(p, c, n, out, cut);
      } else {
        k := TruncatedStream(p, c, n + 1, out[1..], cut - |frame|);
        CutInLater(p, c, n, out, cut, k);
        k := k + 1;
      }
    }
  }

  lemma DecodeNothing<E>(p: Profile, c: Cipher<E>, n: nat)
    requires ProfileOk(p)
    ensures DecodeAll(p, c, n, []) == Decoded([], AtBoundary)
  {
  }
}
