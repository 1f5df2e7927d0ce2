/** The byte layout of datagrams: the type tag, the mimicry around it, and the
    framing of the first handshake message (src/udp/wire_dgram.rs,
    src/udp/handshake.rs). */
module Hs1Framing {
  import opened Common

  const COOKIE_LEN := 16

  type Cookie = c: bytes | |c| == COOKIE_LEN witness seq(COOKIE_LEN, _ => 0)

  // ---- The type tag ------------------------------------------------------------------

  datatype DgramType = Hs1 | Hs2 | Hs3 | CookieReply | Data

  datatype Inner = Inner(ty: DgramType, body: bytes)

  function TypeByte(t: DgramType): byte {
    match t
    case Hs1 => 0x01
    case Hs2 => 0x02
    case Hs3 => 0x03
    case CookieReply => 0x04
    case Data => 0x05
  }

  function TypeOf(b: byte): Option<DgramType> {
    match b
    case 0x01 => Some(Hs1)
    case 0x02 => Some(Hs2)
    case 0x03 => Some(Hs3)
    case 0x04 => Some(CookieReply)
    case 0x05 => Some(Data)
    case _ => None
  }

  function EncodeInner(i: Inner): bytes {
    [TypeByte(i.ty)] + i.body
  }

  function DecodeInner(b: bytes): Option<Inner> {
    if b == [] then None
    else
      match TypeOf(b[0])
      case None => None
      case Some(t) => Some(Inner(t, b[1..]))
  }

  /** The decoder accepts what the encoder writes and nothing else. */
  lemma InnerIff(b: bytes, i: Inner)
    ensures DecodeInner(b) == Some(i) <==> b == EncodeInner(i)
  {
    assert EncodeInner(i)[1..] == i.body;
    assert b != [] ==> b == [b[0]] + b[1..];
  }

  /** The tags on the wire. */
  lemma TagsAreThese(body: bytes)
    ensures EncodeInner(Inner(Hs1, body)) == [0x01] + body
    ensures EncodeInner(Inner(Hs2, body)) == [0x02] + body
    ensures EncodeInner(Inner(Hs3, body)) == [0x03] + body
    ensures EncodeInner(Inner(CookieReply, body)) == [0x04] + body
    ensures EncodeInner(Inner(Data, body)) == [0x05] + body
  {
  }

  // ---- Mimicry -----------------------------------------------------------------------

  /** A datagram disguise. Shaping may use randomness. */
  datatype Mimicry = Mimicry(shapeOut: (bytes, nat) -> bytes, shapeIn: bytes -> Option<bytes>)

  /** What every profile owes: unshaping undoes shaping, whatever the dice say. */
  ghost predicate Faithful(m: Mimicry) {
    forall b, r :: m.shapeIn(m.shapeOut(b, r)) == Some(b)
  }

  function Shape(m: Mimicry, i: Inner, r: nat): bytes {
    m.shapeOut(EncodeInner(i), r)
  }

  function Unshape(m: Mimicry, d: bytes): Option<Inner> {
    match m.shapeIn(d)
    case None => None
    case Some(b) => DecodeInner(b)
  }

  lemma ShapeRoundTrip(m: Mimicry, i: Inner, r: nat)
    requires Faithful(m)
    ensures Unshape(m, Shape(m, i, r)) == Some(i)
  {
    InnerIff(EncodeInner(i), i);
  }

  // ---- The first handshake message --------------------------------------------------------

  datatype First = First(msg1: bytes, cookie: Option<Cookie>)

  /** The length is cast to 16 bits, whatever it was. */
  function EncodeFirst(f: First): bytes {
    var len := |f.msg1| % 0x1_0000;
    [len / 256, len % 256] + f.msg1 + Own(f)
  }

  function LeadingCookie(b: bytes): Option<Cookie> {
    if |b| >= COOKIE_LEN then Some(b[..COOKIE_LEN]) else None
  }

  function DecodeFirst(b: bytes): Option<First> {
    if |b| < 2 then None
    else
      var len := (b[0] as int) * 256 + b[1];
      var rest := b[2..];
      if |rest| < len then None else Some(First(rest[..len], LeadingCookie(rest[len..])))
  }

  /** The length comes first, its more significant octet before the other. */
  lemma LengthLeads(msg1: bytes)
    requires |msg1| == 0x0102
    ensures EncodeFirst(First(msg1, None))[..2] == [0x01, 0x02] && EncodeFirst(First(msg1, None))[2..] == msg1
  {
  }

  lemma DecodeParts(len: nat, rest: bytes)
    requires len <= 0xFFFF
    ensures
      DecodeFirst([len / 256, len % 256] + rest)
      == if |rest| < len then None else Some(First(rest[..len], LeadingCookie(rest[len..])))
  {
    var b := [len / 256, len % 256] + rest;
    assert b[2..] == rest && (b[0] as int) * 256 + b[1] == len;
  }

  function Own(f: First): bytes {
    if f.cookie.Some? then f.cookie.value else []
  }

  /** What the decoder makes of any encoding, oversized ones included: the message
      cut to its length modulo 65536, the overflow taken for the cookie. */
  lemma DecodeEncoded(f: First)
    ensures
      var len := |f.msg1| % 0x1_0000;
      DecodeFirst(EncodeFirst(f)) == Some(First(f.msg1[..len], LeadingCookie(f.msg1[len..] + Own(f))))
  {
    hide DecodeFirst;
    var len := |f.msg1| % 0x1_0000;
    var rest := f.msg1 + Own(f);
    assert EncodeFirst(f) == [len / 256, len % 256] + rest;
    DecodeParts(len, rest);
    assert rest[..len] == f.msg1[..len] && rest[len..] == f.msg1[len..] + Own(f);
  }

  /** The message and its cookie come back exactly when the message fits the
      length field. */
  lemma FirstRoundTrip(f: First)
    ensures DecodeFirst(EncodeFirst(f)) == Some(f) <==> |f.msg1| <= 0xFFFF
  {
    hide DecodeFirst, EncodeFirst;
    DecodeEncoded(f);
    var len := |f.msg1| % 0x1_0000;
    if |f.msg1| <= 0xFFFF {
      assert len == |f.msg1| && f.msg1[..len] == f.msg1;
      assert f.msg1[len..] + Own(f) == Own(f);
      assert Own(f)[..|Own(f)|] == Own(f);
    }
  }

  /** `b` is the encoding of `f`, followed at most by bytes that do not count: any
      after a cookie, too few for one where there is none. */
  predicate Carries(b: bytes, f: First) {
    && |f.msg1| <= 0xFFFF
    && EncodeFirst(f) <= b
    && (f.cookie.None? ==> |b| < |EncodeFirst(f)| + COOKIE_LEN)
  }

  lemma DecodedIsCarried(b: bytes, f: First)
    requires DecodeFirst(b) == Some(f)
    ensures Carries(b, f)
  {
    var len := (b[0] as int) * 256 + b[1];
    var e := EncodeFirst(f);
    assert |f.msg1| == len && len / 256 == b[0] && len % 256 == b[1];
    assert b == [b[0], b[1]] + b[2..][..len] + b[2..][len..];
    assert Own(f) == b[2..][len..][..|Own(f)|];
    assert e == b[..|e|];
  }

  lemma CarriedDecodes(b: bytes, f: First)
    requires Carries(b, f)
    ensures DecodeFirst(b) == Some(f)
  {
    hide DecodeFirst;
    var len := |f.msg1|;
    var extra := b[|EncodeFirst(f)|..];
    var rest := f.msg1 + (Own(f) + extra);
    assert b == EncodeFirst(f) + extra == [len / 256, len % 256] + rest;
    DecodeParts(len, rest);
    assert rest[..len] == f.msg1 && rest[len..] == Own(f) + extra;
    assert (Own(f) + extra)[..|Own(f)|] == Own(f);
  }

  /** The decoder, exactly. */
  lemma DecodeIff(b: bytes, f: First)
    ensures DecodeFirst(b) == Some(f) <==> Carries(b, f)
  {
    if DecodeFirst(b) == Some(f) {
      DecodedIsCarried(b, f);
    }
    if Carries(b, f) {
      CarriedDecodes(b, f);
    }
  }

  // ---- The cookie exchange on the wire ---------------------------------------------------------

  function ReadFirst(m: Mimicry, d: bytes): Option<First> {
    match Unshape(m, d)
    case None => None
    case Some(i) => if i.ty == Hs1 then DecodeFirst(i.body) else None
  }

  function ReadCookie(m: Mimicry, d: bytes): Option<Cookie> {
    match Unshape(m, d)
    case None => None
    case Some(i) => if i.ty == CookieReply then LeadingCookie(i.body) else None
  }

  /** A cookie the server hands out reaches the client, and the repeated first
      message brings it and the handshake message back to the server, through any
      faithful mimicry, exactly when the message fits the length field. */
  lemma ChallengeRoundTrip(m: Mimicry, cookie: Cookie, msg1: bytes, r1: nat, r2: nat)
    requires Faithful(m)
    ensures ReadCookie(m, Shape(m, Inner(CookieReply, cookie), r1)) == Some(cookie)
    ensures
      var echoed := ReadCookie(m, Shape(m, Inner(CookieReply, cookie), r1));
      var f := First(msg1, echoed);
      ReadFirst(m, Shape(m, Inner(Hs1, EncodeFirst(f)), r2)) == Some(First(msg1, Some(cookie)))
      <==> |msg1| <= 0xFFFF
  {
    ShapeRoundTrip(m, Inner(CookieReply, cookie), r1);
    assert cookie[..COOKIE_LEN] == cookie;
    var f := First(msg1, Some(cookie));
    ShapeRoundTrip(m, Inner(Hs1, EncodeFirst(f)), r2);
    FirstRoundTrip(f);
  }
}
