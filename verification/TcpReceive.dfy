/**
 Receiving over TCP: the accumulation loop of `recv_raw` and `recv_frame`
 (src/framing.rs), the pump that drops and restarts it inside `select!`
 (src/client.rs, src/server.rs), and the server's handshake, which hands its
 buffer over to the pump (src/handshake_io.rs).
 */
module TcpReceive {
  import opened Common
  import opened Framing

  const READ_SIZE: nat := 4096

  /** What the next read will do: nothing yet, yield up to so many bytes, or fail. */
  datatype Turn = NotYet | Upto(n: nat) | Breaks

  datatype ReadResult = Chunk(data: bytes) | Eof | Pending | Failed

  /** A TCP stream. `unread` is every byte the peer has
      written or will write and that has not been read; `closed` says that it
      closes after them. `turns` is the network's schedule; once it runs out,
      reads yield all they can. `written` is what has been sent the other way. */
  class TcpStream {
    var unread: bytes
    var turns: seq<Turn>
    const closed: bool
    var written: bytes

    /** No read to come fails. */
    predicate Reliable()
      reads this
    {
      Breaks !in turns
    }

    /** A read that is still pending has consumed nothing, so dropping it loses nothing. */
    method Read(max: nat) returns (r: ReadResult)
      requires max > 0
      modifies this`unread, this`turns
      ensures r.Chunk? ==> 0 < |r.data| <= max && old(unread) == r.data + unread
      ensures !r.Chunk? ==> unread == old(unread)
      ensures r.Eof? ==> closed && unread == []
      ensures |turns| <= |old(turns)|
      ensures r.Pending? && old(turns) == [] ==> unread == [] && !closed
      ensures r.Pending? && old(turns) != [] ==> |turns| < |old(turns)|
      ensures old(Reliable()) ==> Reliable() && !r.Failed?
    {
      var turn := if turns == [] then Upto(max) else turns[0];
      if turns != [] {
        turns := turns[1..];
      }
      match turn
      case NotYet => return Pending;
      case Breaks => return Failed;
      case Upto(n) =>
        if unread == [] {
          if closed { return Eof; }
          return Pending;
        }
        var k := if n == 0 then 1 else if n > max then max else n;
        if k > |unread| {
          k := |unread|;
        }
        var chunk := unread[..k];
        unread := unread[k..];
        return Chunk(chunk);
    }
  }

  /** `Cancelled`: the wait for more bytes was dropped, or is still going on. */
  datatype RawResult = Raw(record: bytes) | ClosedCleanly | EofMidFrame | BadFraming | Broken | Cancelled

  /** What one call may return, given all that was buffered or still to come
      (`before`), and what is left of it (`after`). The bytes alone decide;
      their division into reads does not show. */
  predicate RawOutcome(p: Profile, before: bytes, closed: bool, r: RawResult, after: bytes)
    requires ProfileOk(p)
  {
    match r
    case Raw(record) => Parse(p, before) == Record(record, after)
    case ClosedCleanly => closed && before == after == []
    case EofMidFrame => closed && before == after != [] && Parse(p, before).NeedMore?
    case BadFraming => before == after && Parse(p, before).Invalid?
    case Broken => before == after
    case Cancelled => before == after
  }

  datatype FrameResult<E> = Got(message: E) | Stopped(why: RawResult) | BadRecord

  /** A connection: its stream, the caller's accumulation buffer, and the number
      of the next message to decrypt. */
  class Connection<E> {
    const io: TcpStream
    const profile: Profile
    const cipher: Cipher<E>
    var buf: bytes
    var count: nat

    constructor (io: TcpStream, profile: Profile, cipher: Cipher<E>, buf: bytes)
      ensures this.io == io && this.profile == profile && this.cipher == cipher && this.buf == buf && count == 0
    {
      this.io, this.profile, this.cipher, this.buf, count := io, profile, cipher, buf, 0;
    }

    /** Everything not yet handed out: buffered, then still to be read. */
    function ToCome(): bytes
      reads this, io
    {
      buf + io.unread
    }

    /** `recv_raw`, and the loop inside `recv_frame`. */
    method RecvRaw() returns (r: RawResult)
      requires ProfileOk(profile)
      modifies this`buf, io`unread, io`turns
      ensures RawOutcome(profile, old(ToCome()), io.closed, r, ToCome())
      ensures |io.turns| <= |old(io.turns)|
      ensures r.Cancelled? ==> Parse(profile, buf).NeedMore?
      ensures r.Cancelled? ==> |io.turns| < |old(io.turns)| || (io.unread == [] && !io.closed)
      ensures old(io.Reliable()) ==> io.Reliable() && !r.Broken?
    {
      ghost var all := ToCome();
      while true
        invariant ToCome() == all && |io.turns| <= |old(io.turns)|
        invariant old(io.Reliable()) ==> io.Reliable()
        decreases |io.unread|
      {
        ParseStable(profile, buf, io.unread);
        match Parse(profile, buf) {
          case Record(record, rest) =>
            buf := rest;
            return Raw(record);
          case Invalid => return BadFraming;
          case NeedMore =>
        }
        var got := io.Read(READ_SIZE);
        match got {
          case Eof =>
            assert buf == all;
            return if buf == [] then ClosedCleanly else EofMidFrame;
          case Failed => return Broken;
          case Pending => return Cancelled;
          case Chunk(data) =>
            assert buf + (data + io.unread) == (buf + data) + io.unread;
            buf := buf + data;
        }
      }
    }

    /** `recv_raw` awaited without a `select!` around it: `Cancelled` is left only
        for a peer that stays silent for ever. */
    method AwaitRaw() returns (r: RawResult)
      requires ProfileOk(profile)
      modifies this`buf, io`unread, io`turns
      ensures RawOutcome(profile, old(ToCome()), io.closed, r, ToCome())
      ensures r.Cancelled? ==> io.unread == [] && !io.closed && Parse(profile, ToCome()).NeedMore?
      ensures |io.turns| <= |old(io.turns)|
      ensures old(io.Reliable()) ==> io.Reliable() && !r.Broken?
    {
      while true
        invariant ToCome() == old(ToCome()) && |io.turns| <= |old(io.turns)|
        invariant old(io.Reliable()) ==> io.Reliable()
        decreases |io.turns|
      {
        r := RecvRaw();
        if !r.Cancelled? || (io.unread == [] && !io.closed) {
          assert io.unread == [] ==> ToCome() == buf;
          return;
        }
      }
    }

    /** `read_exact` of the preamble, straight from the stream. */
    method SkipExactly(n: nat) returns (r: RawResult)
      modifies io`unread, io`turns
      ensures r.Raw? ==> |r.record| == n && old(io.unread) == r.record + io.unread
      ensures r.ClosedCleanly? ==> io.closed && |old(io.unread)| < n
      ensures r.Cancelled? ==> !io.closed && |old(io.unread)| < n
      ensures r.Raw? || r.ClosedCleanly? || r.Cancelled? || r.Broken?
      ensures |io.turns| <= |old(io.turns)|
      ensures old(io.Reliable()) ==> io.Reliable() && !r.Broken?
    {
      var got: bytes := [];
      while |got| < n
        invariant |got| <= n && old(io.unread) == got + io.unread
        invariant |io.turns| <= |old(io.turns)| && (old(io.Reliable()) ==> io.Reliable())
        decreases |io.unread|, |io.turns|
      {
        var r := io.Read(n - |got|);
        match r {
          case Eof => return ClosedCleanly;
          case Failed => return Broken;
          case Pending =>
            if io.unread == [] && !io.closed { return Cancelled; }
          case Chunk(data) =>
            assert got + (data + io.unread) == (got + data) + io.unread;
            got := got + data;
        }
      }
      return Raw(got);
    }

    /** `recv_frame`. */
    method RecvFrame() returns (r: FrameResult<E>)
      requires ProfileOk(profile)
      modifies this, io`unread, io`turns
      ensures |io.turns| <= |old(io.turns)|
      ensures old(io.Reliable()) ==> io.Reliable() && r != Stopped(Broken)
      ensures
        match r
        case Got(e) => exists record ::
            && RawOutcome(profile, old(ToCome()), io.closed, Raw(record), ToCome())
            && cipher.dec(old(count), record) == Some(e) && count == old(count) + 1
        case BadRecord => exists record ::
            && RawOutcome(profile, old(ToCome()), io.closed, Raw(record), ToCome())
            && cipher.dec(old(count), record) == None
        case Stopped(why) =>
            && !why.Raw? && count == old(count)
            && RawOutcome(profile, old(ToCome()), io.closed, why, ToCome())
            && (why.Cancelled? ==> |io.turns| < |old(io.turns)| || (io.unread == [] && !io.closed))
    {
      var raw := RecvRaw();
      match raw
      case Raw(record) =>
        match cipher.dec(count, record) {
          case None => return BadRecord;
          case Some(e) =>
            count := count + 1;
            return Got(e);
        }
      case _ => return Stopped(raw);
    }

    /** The receiving branch of a pump, over `rounds` turns of its `select!`. In
        any turn the other branch may win and drop `recv_frame`. What has been
        delivered, followed by what the rest of the bytes means, is always what
        the whole stream means; if the pump stops on an end of stream or on bad
        bytes, it has delivered everything before that point. On a stream that
        closes, a turn that delivers nothing uses up a turn of the network. */
    method Pump(rounds: nat) returns (delivered: seq<E>, stopped: Option<FrameResult<E>>)
      requires ProfileOk(profile)
      modifies this, io`unread, io`turns
      ensures
        var whole := DecodeAll(profile, cipher, old(count), old(ToCome()));
        match stopped
        case None =>
          && count == old(count) + |delivered|
          && whole == Prepend(delivered, DecodeAll(profile, cipher, count, ToCome()))
        case Some(BadRecord) => whole == Decoded(delivered, Undecryptable)
        case Some(Stopped(ClosedCleanly)) => whole == Decoded(delivered, AtBoundary)
        case Some(Stopped(EofMidFrame)) => whole == Decoded(delivered, MidFrame)
        case Some(Stopped(BadFraming)) => whole == Decoded(delivered, Malformed)
        case Some(Stopped(Broken)) => delivered <= whole.messages
        case Some(_) => false
      ensures stopped.None? && io.closed ==> rounds <= |delivered| + |old(io.turns)|
      ensures old(io.Reliable()) ==> stopped != Some(Stopped(Broken))
    {
      ghost var whole := DecodeAll(profile, cipher, count, ToCome());
      delivered := [];
      for i := 0 to rounds
        invariant count == old(count) + |delivered|
        invariant io.closed ==> i + |io.turns| <= |delivered| + |old(io.turns)|
        invariant old(io.Reliable()) ==> io.Reliable()
        invariant whole == Prepend(delivered, DecodeAll(profile, cipher, count, ToCome()))
      {
        ghost var before, n := ToCome(), count;
        var r := RecvFrame();
        match r {
          case Got(e) =>
            assert DecodeAll(profile, cipher, n, before)
                == Prepend([e], DecodeAll(profile, cipher, count, ToCome()));
            PrependTwice(delivered, [e], DecodeAll(profile, cipher, count, ToCome()));
            delivered := delivered + [e];
          case Stopped(Cancelled) =>
          case _ =>
            return delivered, Some(r);
        }
      }
      return delivered, None;
    }
  }

  function Prepend<E>(done: seq<E>, d: Decoded<E>): Decoded<E> {
    d.(messages := done + d.messages)
  }

  lemma PrependTwice<E>(a: seq<E>, b: seq<E>, d: Decoded<E>)
    ensures Prepend(a, Prepend(b, d)) == Prepend(a + b, d)
  {
    assert a + (b + d.messages) == (a + b) + d.messages;
  }
}
