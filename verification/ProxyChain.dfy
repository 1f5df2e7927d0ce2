/** Dialling through a chain of proxies (src/proxy/mod.rs). */
module ProxyChain {
  import opened Common
  import opened Text
  import opened ProxyIo
  import Socks5
  import HttpConnect

  datatype Kind = Socks5Proxy | HttpProxy

  datatype Hop = Hop(kind: Kind, addr: bytes, auth: Option<Auth>)

  /** Where hop `i` is asked to connect to: the next hop, or the target. */
  function Destination(hops: seq<Hop>, target: Address, i: nat): (r: Option<Address>)
    requires i < |hops| && target.port < 0x1_0000
    ensures r.Some? ==> r.value.port < 0x1_0000
  {
    if i + 1 < |hops| then ParseAddr(hops[i + 1].addr) else Some(target)
  }

  /** `dst` is what hop `i` should be asked for: what the next hop's address says, or
      for the last hop the target. */
  ghost predicate IsNext(hops: seq<Hop>, target: Address, i: nat, dst: Address)
    requires i < |hops|
  {
    if i + 1 < |hops| then NamesAddr(hops[i + 1].addr, dst) else dst == target
  }

  lemma DestinationIsNext(hops: seq<Hop>, target: Address, i: nat, dst: Address)
    requires i < |hops| && target.port < 0x1_0000
    ensures Destination(hops, target, i) == Some(dst) <==> IsNext(hops, target, i, dst)
  {
    if i + 1 < |hops| {
      ParseAddrIff(hops[i + 1].addr, dst);
    }
  }

  // ---- One hop -----------------------------------------------------------------------

  /** How many bytes hop `h` takes to agree to connect to `dst`. */
  ghost function ReplyLength(h: Hop, dst: Address, input: bytes): (r: Option<nat>)
    ensures r.Some? ==> r.value <= |input|
  {
    match h.kind
    case Socks5Proxy => Socks5.ReplyLength(input, h.auth, dst)
    case HttpProxy => HttpConnect.ReplyLength(input)
  }

  /** `reply` is, from its first byte to its last, the consent of hop `h`. */
  ghost predicate Consents(h: Hop, dst: Address, reply: bytes) {
    ReplyLength(h, dst, reply) == Some(|reply|)
  }

  /** What is sent to a hop that consents with `reply`. */
  ghost function Sent(h: Hop, dst: Address, reply: bytes): bytes
    requires Consents(h, dst, reply) && dst.port < 0x1_0000
  {
    match h.kind
    case Socks5Proxy => Socks5.Sent(reply, h.auth, dst)
    case HttpProxy => HttpConnect.Request(dst, h.auth)
  }

  /** A hop that was sent these bytes, and consented with `reply`, was asked to connect
      to `dst`, and given the credentials it is due. An HTTP proxy can tell as long as
      host and user name do not break the syntax. */
  ghost predicate AsksFor(h: Hop, dst: Address, reply: bytes, sent: bytes) {
    match h.kind
    case Socks5Proxy =>
      && |reply| >= 2
      && Socks5.ReadClient(sent, reply[1])
         == Some(Socks5.ClientSaid(if h.auth.Some? then [0x00, 0x02] else [0x00],
                                   if reply[1] == 0x02 then h.auth else None, dst))
    case HttpProxy =>
      HttpConnect.HostPlain(dst.host) && (h.auth.Some? ==> COLON !in h.auth.value.user) ==>
        HttpConnect.ReadRequest(sent) == Some(HttpConnect.Seen(dst, h.auth))
  }

  lemma SentAsks(h: Hop, dst: Address, reply: bytes)
    requires Consents(h, dst, reply) && dst.port < 0x1_0000
    ensures AsksFor(h, dst, reply, Sent(h, dst, reply))
  {
    hide Socks5.ConnectLength, Socks5.ReadClient, HttpConnect.ReadRequest, HttpConnect.Request, HttpConnect.Accepts;
    match h.kind
    case Socks5Proxy => Socks5.SentIsRead(reply, h.auth, dst);
    case HttpProxy => HttpConnect.RequestRead(dst, h.auth);
  }

  /** Consent is recognised without a look at what follows it. */
  lemma ConsentConsumed(h: Hop, dst: Address, reply: bytes, tail: bytes)
    requires Consents(h, dst, reply)
    ensures ReplyLength(h, dst, reply + tail) == Some(|reply|)
  {
    hide Socks5.ReplyLength, Socks5.Render, HttpConnect.Accepts;
    assert reply[..|reply|] == reply;
    match h.kind
    case Socks5Proxy =>
      var a := Socks5.ConsumedIsLaid(reply, h.auth, dst);
      Socks5.LaidConsumed(a, h.auth, dst, tail);
    case HttpProxy =>
      HttpConnect.AcceptedConsumed(reply, tail);
  }

  /** And what was recognised as consent is consent on its own. */
  lemma ConsumedConsents(h: Hop, dst: Address, input: bytes)
    requires ReplyLength(h, dst, input).Some?
    ensures Consents(h, dst, input[..ReplyLength(h, dst, input).value])
  {
    hide Socks5.ReplyLength, Socks5.Render, HttpConnect.Accepts;
    var reply := input[..ReplyLength(h, dst, input).value];
    assert reply + [] == reply;
    match h.kind
    case Socks5Proxy =>
      var a := Socks5.ConsumedIsLaid(input, h.auth, dst);
      Socks5.LaidConsumed(a, h.auth, dst, []);
    case HttpProxy =>
      HttpConnect.AcceptedConsumed(reply, []);
  }

  method Tunnel(h: Hop, dst: Address, io: Duplex) returns (ok: bool)
    requires dst.port < 0x1_0000
    modifies io
    ensures ok <==> ReplyLength(h, dst, old(io.input)).Some?
    ensures ok ==>
              var n := ReplyLength(h, dst, old(io.input)).value;
              && Consents(h, dst, old(io.input)[..n])
              && io.input == old(io.input)[n..]
              && io.output == old(io.output) + Sent(h, dst, old(io.input)[..n])
  {
    hide Socks5.ReplyLength, HttpConnect.ReplyLength;
    ghost var input := io.input;
    match h.kind {
      case Socks5Proxy => ok := Socks5.TunnelSocks5(io, dst, h.auth);
      case HttpProxy => ok := HttpConnect.TunnelHttp(io, dst, h.auth);
    }
    if ok {
      ConsumedConsents(h, dst, input);
      if h.kind == Socks5Proxy {
        SocksSentStable(input, h.auth, dst);
      }
    }
  }

  lemma SocksSentStable(input: bytes, auth: Option<Auth>, dst: Address)
    requires Socks5.ReplyLength(input, auth, dst).Some? && dst.port < 0x1_0000
    requires Socks5.ReplyLength(input[..Socks5.ReplyLength(input, auth, dst).value], auth, dst).Some?
    ensures
      var reply := input[..Socks5.ReplyLength(input, auth, dst).value];
      Socks5.Sent(reply, auth, dst) == Socks5.Sent(input, auth, dst)
  {
    hide Socks5.ConnectLength, Socks5.ConnectRequest;
  }

  // ---- The chain ------------------------------------------------------------------------

  function Concat(parts: seq<bytes>): bytes {
    if parts == [] then [] else parts[0] + Concat(parts[1..])
  }

  /** Every hop, in order, consented to connect to the next. */
  ghost predicate Consented(hops: seq<Hop>, target: Address, replies: seq<bytes>)
    requires target.port < 0x1_0000
  {
    && |replies| <= |hops|
    && forall i | 0 <= i < |replies| ::
         Destination(hops, target, i).Some? && Consents(hops[i], Destination(hops, target, i).value, replies[i])
  }

  ghost function SentAll(hops: seq<Hop>, target: Address, replies: seq<bytes>): bytes
    requires target.port < 0x1_0000 && Consented(hops, target, replies)
  {
    if replies == [] then []
    else
      var i := |replies| - 1;
      SentAll(hops, target, replies[..i]) + Sent(hops[i], Destination(hops, target, i).value, replies[i])
  }

  /** Hop `i` was asked for what comes next, and consented to just that. */
  ghost predicate AskedInTurn(hops: seq<Hop>, target: Address, i: nat, reply: bytes, sent: bytes)
    requires i < |hops|
  {
    exists dst :: IsNext(hops, target, i, dst) && Consents(hops[i], dst, reply) && AsksFor(hops[i], dst, reply, sent)
  }

  /** What was sent falls into one part for each hop, in order. */
  lemma {:induction false} SentInTurn(hops: seq<Hop>, target: Address, replies: seq<bytes>) returns (parts: seq<bytes>)
    requires target.port < 0x1_0000 && Consented(hops, target, replies)
    ensures |parts| == |replies| && Concat(parts) == SentAll(hops, target, replies)
    ensures forall i | 0 <= i < |replies| :: AskedInTurn(hops, target, i, replies[i], parts[i])
    decreases |replies|
  {
    hide Consents, Destination, Sent, Concat, AsksFor, IsNext;
    parts := [];
    if replies == [] {
      ConcatNothing();
    } else {
      var i := |replies| - 1;
      var init := replies[..i];
      parts := SentInTurn(hops, target, init);
      var dst := Destination(hops, target, i).value;
      var part := Sent(hops[i], dst, replies[i]);
      DestinationIsNext(hops, target, i, dst);
      SentAsks(hops[i], dst, replies[i]);
      ConcatSnoc(parts, part);
      forall j | 0 <= j < i ensures AskedInTurn(hops, target, j, replies[j], parts[j]) {
        assert init[j] == replies[j];
      }
      parts := parts + [part];
    }
  }

  lemma ConcatNothing()
    ensures Concat([]) == []
  {
  }

  lemma {:induction false} ConcatSnoc(parts: seq<bytes>, last: bytes)
    ensures Concat(parts + [last]) == Concat(parts) + last
  {
    if parts == [] {
      assert [last][1..] == [];
    } else {
      ConcatSnoc(parts[1..], last);
      assert (parts + [last])[1..] == parts[1..] + [last];
    }
  }

  lemma ConcatFrom(parts: seq<bytes>, i: nat, rest: bytes)
    requires i < |parts|
    ensures Concat(parts[i..]) + rest == parts[i] + (Concat(parts[i + 1..]) + rest)
  {
    assert parts[i..][1..] == parts[i + 1..];
  }

  lemma ConsentUnique(h: Hop, dst: Address, r1: bytes, t1: bytes, r2: bytes, t2: bytes)
    requires Consents(h, dst, r1) && Consents(h, dst, r2) && r1 + t1 == r2 + t2
    ensures r1 == r2 && t1 == t2
  {
    hide Consents, ReplyLength;
    ConsentConsumed(h, dst, r1, t1);
    ConsentConsumed(h, dst, r2, t2);
    assert r1 == (r1 + t1)[..|r1|] && t1 == (r1 + t1)[|r1|..];
    assert r2 == (r2 + t2)[..|r2|] && t2 == (r2 + t2)[|r2|..];
  }

  /** Two readings of one stream as consents, hop by hop, never disagree. */
  lemma {:induction false} ReadingUnique(hops: seq<Hop>, target: Address,
                                         r1: seq<bytes>, rest1: bytes, r2: seq<bytes>, rest2: bytes, n: nat)
    requires target.port < 0x1_0000 && Consented(hops, target, r1) && Consented(hops, target, r2)
    requires Concat(r1) + rest1 == Concat(r2) + rest2
    requires n <= |r1| && n <= |r2|
    ensures r1[..n] == r2[..n] && Concat(r1[n..]) + rest1 == Concat(r2[n..]) + rest2
  {
    hide Consents, Destination, Concat;
    if n == 0 {
      assert r1[0..] == r1 && r2[0..] == r2;
    } else {
      var m := n - 1;
      ReadingUnique(hops, target, r1, rest1, r2, rest2, m);
      ConcatFrom(r1, m, rest1);
      ConcatFrom(r2, m, rest2);
      ConsentUnique(hops[m], Destination(hops, target, m).value,
                    r1[m], Concat(r1[n..]) + rest1, r2[m], Concat(r2[n..]) + rest2);
      assert r1[..n] == r1[..m] + [r1[m]] && r2[..n] == r2[..m] + [r2[m]];
    }
  }

  /** The stream begins with a consent from every hop. */
  ghost predicate Dialable(hops: seq<Hop>, target: Address, input: bytes)
    requires target.port < 0x1_0000
  {
    exists replies, rest :: ReadsAs(hops, target, input, replies, rest) && |replies| == |hops|
  }

  ghost predicate ReadsAs(hops: seq<Hop>, target: Address, input: bytes, replies: seq<bytes>, rest: bytes)
    requires target.port < 0x1_0000
  {
    Consented(hops, target, replies) && input == Concat(replies) + rest
  }

  /** A chain that fails at hop `i` could not have been dialled in any other way. */
  lemma StuckIsUndialable(hops: seq<Hop>, target: Address, input: bytes, replies: seq<bytes>, rest: bytes)
    requires target.port < 0x1_0000 && |replies| < |hops| && ReadsAs(hops, target, input, replies, rest)
    requires
      var dst := Destination(hops, target, |replies|);
      dst.None? || ReplyLength(hops[|replies|], dst.value, rest).None?
    ensures !Dialable(hops, target, input)
  {
    hide ReplyLength, Destination;
    var i := |replies|;
    forall replies', rest' | ReadsAs(hops, target, input, replies', rest') ensures |replies'| != |hops| {
      if |replies'| == |hops| {
        ReadingUnique(hops, target, replies, rest, replies', rest', i);
        var t := Concat(replies'[i + 1..]) + rest';
        ConcatFrom(replies', i, rest');
        assert replies[i..] == [] && Concat([]) + rest == rest;
        var dst := Destination(hops, target, i);
        assert dst.Some?;
        ConsentConsumed(hops[i], dst.value, replies'[i], t);
      }
    }
  }

  /** `dial`, once the first hop is connected: it succeeds exactly when the stream
      begins with one consent per hop, each to connect to the next hop or at last to
      the target, and leaves the stream right behind the last of them. What was sent
      falls into one part for each hop, which asks it for the address of the next. */
  method Dial(first: Hop, chain: seq<Hop>, target: Address, io: Duplex)
    returns (ok: bool, ghost replies: seq<bytes>, ghost parts: seq<bytes>)
    requires target.port < 0x1_0000
    modifies io
    ensures ok <==> Dialable([first] + chain, target, old(io.input))
    ensures ok ==>
              && ReadsAs([first] + chain, target, old(io.input), replies, io.input)
              && |replies| == |parts| == 1 + |chain|
              && io.output == old(io.output) + Concat(parts)
              && forall i | 0 <= i < 1 + |chain| :: AskedInTurn([first] + chain, target, i, replies[i], parts[i])
  {
    hide Destination, ReplyLength, Sent;
    var hops := [first] + chain;
    ghost var input, output := io.input, io.output;
    replies, parts := [], [];
    for i := 0 to |hops|
      invariant |replies| == i
      invariant ReadsAs(hops, target, input, replies, io.input)
      invariant io.output == output + SentAll(hops, target, replies)
    {
      ghost var rest, sent := io.input, io.output;
      var next := Destination(hops, target, i);
      if next.None? {
        StuckIsUndialable(hops, target, input, replies, rest);
        return false, replies, parts;
      }
      ok := Tunnel(hops[i], next.value, io);
      if !ok {
        StuckIsUndialable(hops, target, input, replies, rest);
        return false, replies, parts;
      }
      ghost var reply := rest[..ReplyLength(hops[i], next.value, rest).value];
      Extend(hops, target, input, replies, reply, io.input);
      SentMore(hops, target, replies, reply);
      replies := replies + [reply];
    }
    assert ReadsAs(hops, target, input, replies, io.input);
    parts := SentInTurn(hops, target, replies);
    return true, replies, parts;
  }

  /** One hop more: what the stream reads as. */
  lemma Extend(hops: seq<Hop>, target: Address, input: bytes, replies: seq<bytes>, reply: bytes, rest: bytes)
    requires target.port < 0x1_0000 && |replies| < |hops|
    requires ReadsAs(hops, target, input, replies, reply + rest)
    requires
      var dst := Destination(hops, target, |replies|);
      dst.Some? && Consents(hops[|replies|], dst.value, reply)
    ensures ReadsAs(hops, target, input, replies + [reply], rest)
  {
    hide Destination, Consents, Concat;
    ConsentedMore(hops, target, replies, reply);
    ConcatSnoc(replies, reply);
    assert Concat(replies) + (reply + rest) == Concat(replies) + reply + rest;
  }

  lemma ConsentedMore(hops: seq<Hop>, target: Address, replies: seq<bytes>, reply: bytes)
    requires target.port < 0x1_0000 && |replies| < |hops| && Consented(hops, target, replies)
    requires
      var dst := Destination(hops, target, |replies|);
      dst.Some? && Consents(hops[|replies|], dst.value, reply)
    ensures Consented(hops, target, replies + [reply])
  {
    hide Destination, Consents;
  }

  /** And what was sent. */
  lemma SentMore(hops: seq<Hop>, target: Address, replies: seq<bytes>, reply: bytes)
    requires target.port < 0x1_0000 && |replies| < |hops|
    requires Consented(hops, target, replies) && Consented(hops, target, replies + [reply])
    ensures
      && Destination(hops, target, |replies|).Some?
      && Consents(hops[|replies|], Destination(hops, target, |replies|).value, reply)
    ensures
      SentAll(hops, target, replies + [reply])
      == SentAll(hops, target, replies) + Sent(hops[|replies|], Destination(hops, target, |replies|).value, reply)
  {
    hide Destination, Consents, Sent;
    var all := replies + [reply];
    assert all[|replies|] == reply && all[..|replies|] == replies;
  }
}
