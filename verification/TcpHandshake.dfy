/**
 The Noise-XK exchange over TCP (src/handshake_io.rs) and its handover to the
 pump (src/server.rs). What matters here is the position in the byte stream:
 the bytes read past message 3 are the beginning of the first frames.
 */
module TcpHandshake {
  import opened Common
  import opened Framing
  import opened TcpReceive

  /** The responder's Noise object: which messages it accepts, and its reply. */
  datatype Responder = Responder(accepts1: bytes -> bool, msg2: bytes, accepts3: bytes -> bool)

  /** The initiator's: its two messages and which reply it accepts. */
  datatype Initiator = Initiator(msg1: bytes, accepts2: bytes -> bool, msg3: bytes)

  datatype HandshakeResult = Established(peer: bytes) | Refused | Gone | Silent

  /** The two messages at the front of a client's byte stream, and what follows. */
  datatype Opening = Opening(msg1: bytes, msg3: bytes, later: bytes)

  function PreambleSkip(p: Profile): nat {
    if p.Vanilla? then 0 else p.preambleLen
  }

  function SplitOpening(p: Profile, stream: bytes): Option<Opening>
    requires ProfileOk(p)
  {
    if |stream| < PreambleSkip(p) then None
    else
      match Parse(p, stream[PreambleSkip(p)..])
      case Record(m1, rest) =>
        (match Parse(p, rest)
         case Record(m3, later) => Some(Opening(m1, m3, later))
         case _ => None)
      case _ => None
  }

  /** `server_handshake_in_place`. On success the buffer and the unread bytes
      together are exactly what follows message 3; on a stream that holds an
      acceptable opening, only a failing socket prevents success. */
  method ServerHandshake<E>(c: Connection<E>, hs: Responder, pad: bytes) returns (r: HandshakeResult)
    requires ProfileOk(c.profile) && c.buf == []
    requires |hs.msg2| <= c.profile.limit && |pad| == PadLen(c.profile, |hs.msg2|)
    modifies c`buf, c.io
    ensures r.Established? ==>
              && SplitOpening(c.profile, old(c.io.unread)).Some?
              && var o := SplitOpening(c.profile, old(c.io.unread)).value;
                 && hs.accepts1(o.msg1) && hs.accepts3(o.msg3) && r.peer == o.msg3
                 && c.ToCome() == o.later
                 && c.io.written == old(c.io.written) + FrameOut(c.profile, hs.msg2, pad)
    ensures
      var o := SplitOpening(c.profile, old(c.io.unread));
      o.Some? && hs.accepts1(o.value.msg1) && hs.accepts3(o.value.msg3) && old(c.io.Reliable()) ==> r.Established?
    ensures |c.io.turns| <= |old(c.io.turns)| && (old(c.io.Reliable()) ==> c.io.Reliable())
  {
    hide Parse, FrameOut, PadLen, ProfileOk;
    ParseNothing(c.profile);
    ghost var stream := c.io.unread;
    if PreambleSkip(c.profile) > 0 {
      var junk := c.SkipExactly(PreambleSkip(c.profile));
      if junk.Cancelled? { return Silent; }
      if !junk.Raw? { return Gone; }
      assert stream[PreambleSkip(c.profile)..] == c.io.unread;
    }
    assert c.ToCome() == c.io.unread == stream[PreambleSkip(c.profile)..];
    var m1 := c.AwaitRaw();
    if m1.Cancelled? { return Silent; }
    if m1.Broken? { return Gone; }
    if !m1.Raw? || !hs.accepts1(m1.record) { return Refused; }
    c.io.written := c.io.written + FrameOut(c.profile, hs.msg2, pad);
    var m3 := c.AwaitRaw();
    if m3.Cancelled? { return Silent; }
    if m3.Broken? { return Gone; }
    if !m3.Raw? || !hs.accepts3(m3.record) { return Refused; }
    return Established(m3.record);
  }

  /** `client_handshake_in_place`: what it writes, and what is left to read; on a
      stream that begins with an acceptable message 2, only a failing socket
      prevents success. */
  method ClientHandshake<E>(c: Connection<E>, hs: Initiator, preamble: bytes, pad1: bytes, pad3: bytes)
    returns (r: HandshakeResult)
    requires ProfileOk(c.profile) && c.buf == [] && |preamble| == PreambleSkip(c.profile)
    requires |hs.msg1| <= c.profile.limit && |pad1| == PadLen(c.profile, |hs.msg1|)
    requires |hs.msg3| <= c.profile.limit && |pad3| == PadLen(c.profile, |hs.msg3|)
    modifies c`buf, c.io
    ensures r.Established? ==>
              && c.io.written == old(c.io.written)
                                 + OpeningBytes(c.profile, preamble, hs.msg1, pad1, hs.msg3, pad3)
              && hs.accepts2(r.peer)
              && Parse(c.profile, old(c.io.unread)) == Record(r.peer, c.ToCome())
    ensures
      var m2 := Parse(c.profile, old(c.io.unread));
      m2.Record? && hs.accepts2(m2.record) && old(c.io.Reliable()) ==> r.Established?
    ensures |c.io.turns| <= |old(c.io.turns)| && (old(c.io.Reliable()) ==> c.io.Reliable())
  {
    hide Parse, FrameOut, PadLen, ProfileOk;
    ParseNothing(c.profile);
    c.io.written := c.io.written + preamble;
    c.io.written := c.io.written + FrameOut(c.profile, hs.msg1, pad1);
    assert c.ToCome() == c.io.unread;
    var m2 := c.AwaitRaw();
    if m2.Cancelled? { return Silent; }
    if m2.Broken? { return Gone; }
    if !m2.Raw? || !hs.accepts2(m2.record) { return Refused; }
    c.io.written := c.io.written + FrameOut(c.profile, hs.msg3, pad3);
    return Established(m2.record);
  }

  /** What a client puts on the wire before its first frame. */
  function OpeningBytes(p: Profile, preamble: bytes, m1: bytes, pad1: bytes, m3: bytes, pad3: bytes): bytes
    requires ProfileOk(p) && |m1| <= p.limit && |m3| <= p.limit
    requires |pad1| == PadLen(p, |m1|) && |pad3| == PadLen(p, |m3|)
  {
    preamble + FrameOut(p, m1, pad1) + FrameOut(p, m3, pad3)
  }

  /** The server splits off what the client wrote, to the byte, whatever is
      pipelined behind it. */
  lemma OpeningRoundTrip(p: Profile, preamble: bytes, m1: bytes, pad1: bytes, m3: bytes, pad3: bytes, later: bytes)
    requires ProfileOk(p) && |preamble| == (if p.Vanilla? then 0 else p.preambleLen)
    requires |m1| <= p.limit && |m3| <= p.limit && |pad1| == PadLen(p, |m1|) && |pad3| == PadLen(p, |m3|)
    ensures SplitOpening(p, OpeningBytes(p, preamble, m1, pad1, m3, pad3) + later) == Some(Opening(m1, m3, later))
  {
    var f1, f3 := FrameOut(p, m1, pad1), FrameOut(p, m3, pad3);
    var stream := OpeningBytes(p, preamble, m1, pad1, m3, pad3) + later;
    assert stream[PreambleSkip(p)..] == f1 + (f3 + later);
    ParseFrame(p, m1, pad1, f3 + later);
    ParseFrame(p, m3, pad3, later);
  }

  /** `handle_connection` up to its first `rounds` turns of the pump. Of a client
      that opens properly and then sends `out`, all in whatever pieces, a prefix
      of `out` is delivered. All of it is, if the pump sees the end of the stream;
      and it does see it if the client is accepted, closes, no read fails, and
      the pump gets one turn more than there are envelopes and delays. Of a client
      that is not accepted, nothing is delivered. */
  method Serve<E(!new)>(c: Connection<E>, hs: Responder, gate: bytes -> bool, pad: bytes, rounds: nat,
                        ghost preamble: bytes, ghost m1: bytes, ghost pad1: bytes, ghost m3: bytes, ghost pad3: bytes,
                        ghost out: seq<Outgoing<E>>)
    returns (delivered: seq<E>, ended: bool)
    requires ProfileOk(c.profile) && c.buf == [] && c.count == 0
    requires |hs.msg2| <= c.profile.limit && |pad| == PadLen(c.profile, |hs.msg2|)
    requires CipherOk(c.cipher) && Fits(c.profile, c.cipher, 0, out)
    requires |preamble| == PreambleSkip(c.profile) && |m1| <= c.profile.limit && |m3| <= c.profile.limit
    requires |pad1| == PadLen(c.profile, |m1|) && |pad3| == PadLen(c.profile, |m3|)
    requires c.io.unread == OpeningBytes(c.profile, preamble, m1, pad1, m3, pad3)
                            + WireBytes(c.profile, c.cipher, 0, out)
    modifies c, c.io
    ensures delivered <= Messages(out)
    ensures ended ==> delivered == Messages(out)
    ensures !(hs.accepts1(m1) && hs.accepts3(m3) && gate(m3)) ==> delivered == [] && !ended
    ensures
      && hs.accepts1(m1) && hs.accepts3(m3) && gate(m3)
      && c.io.closed && old(c.io.Reliable()) && rounds > |Messages(out)| + |old(c.io.turns)|
      ==> ended
  {
    OpeningRoundTrip(c.profile, preamble, m1, pad1, m3, pad3, WireBytes(c.profile, c.cipher, 0, out));
    StreamRoundTrip(c.profile, c.cipher, 0, out);
    var r := ServerHandshake(c, hs, pad);
    if !r.Established? || !gate(r.peer) {
      return [], false;
    }
    var stopped;
    delivered, stopped := c.Pump(rounds);
    ended := stopped.Some? && stopped.value.Stopped? && stopped.value.why.ClosedCleanly?;
  }
}
