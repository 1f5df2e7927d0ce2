/**
 The server's receive loop state and `handle_dgram` as the source writes them:
 tables updated in place, early returns, and retain loops at the end.
 */
module UdpServer {
  import opened Common
  import opened Wire
  import opened DataPlane
  import opened PeerTable

  /** The entries a retain keeps, gathered one key at a time. */
  method RetainPending(m: map<Addr, Pending>, now: nat) returns (kept: map<Addr, Pending>)
    ensures kept == map a | a in m && now - m[a].createdAt < PENDING_TIMEOUT :: m[a]
  {
    kept := map[];
    var todo := m.Keys;
    while todo != {}
      invariant todo <= m.Keys
      invariant kept == map a | a in m && a !in todo && now - m[a].createdAt < PENDING_TIMEOUT :: m[a]
      decreases |todo|
    {
      var a :| a in todo;
      if now - m[a].createdAt < PENDING_TIMEOUT {
        kept := kept[a := m[a]];
      }
      todo := todo - {a};
    }
  }

  method RetainPeers(m: map<Addr, Peer>, now: nat) returns (kept: map<Addr, Peer>)
    ensures kept == map a | a in m && now - m[a].lastSeen < PEER_IDLE_TIMEOUT :: m[a]
  {
    kept := map[];
    var todo := m.Keys;
    while todo != {}
      invariant todo <= m.Keys
      invariant kept == map a | a in m && a !in todo && now - m[a].lastSeen < PEER_IDLE_TIMEOUT :: m[a]
      decreases |todo|
    {
      var a :| a in todo;
      if now - m[a].lastSeen < PEER_IDLE_TIMEOUT {
        kept := kept[a := m[a]];
      }
      todo := todo - {a};
    }
  }

  class Receiver {
    const policy: Policy
    var pending: map<Addr, Pending>
    var peers: map<Addr, Peer>
    var conns: seq<Conn>
    var epoch: nat
    var issued: set<Cookie>
    var nextResponder: nat
    var clock: nat

    constructor (p: Policy)
      ensures policy == p && State() == START
    {
      policy := p;
      pending, peers, conns := map[], map[], [];
      epoch, issued, nextResponder, clock := 0, {}, 0, 0;
    }

    function State(): Server
      reads this
    {
      Server(pending, peers, conns, epoch, issued, nextResponder, clock)
    }

    method Rotate()
      modifies this
      ensures State() == Step(policy, old(State()), ServerEvent.Rotate).server
    {
      epoch := epoch + 1;
    }

    /** A first message: the answer, and whether control goes on to the clean-up. */
    method HandleHs1(src: Addr, d: Dgram, load: bool, now: nat) returns (sent: Option<Output>, toEnd: bool)
      requires d.Hs1? || d.Hs1Malformed?
      modifies this
      ensures Outcome(State(), sent, toEnd) == OnHs1(old(State()), src, d, load, now)
    {
      if |peers| >= MAX_PEERS { return None, false; }
      var underLoad := load || |pending| >= PENDING_SOFT_LIMIT;
      if d.Hs1Malformed? { return None, true; }
      if underLoad {
        var cookieOk := d.cookie.Some? && CookieVerifies(epoch, src, d.cookie.value);
        if !cookieOk {
          var cookie := Minted(epoch, src);
          issued := issued + {cookie};
          return Some(Output(src, CookieMsg(Some(cookie)))), true;
        }
      }
      if d.msg1.BadMsg1? { return None, true; }
      var responder := Responder(nextResponder, d.msg1.initiator);
      nextResponder := nextResponder + 1;
      if |pending| >= MAX_PENDING && src !in pending { return None, false; }
      pending := pending[src := Pending(responder, now, if underLoad then d.cookie else None)];
      return Some(Output(src, Hs2(Msg2(responder.initiator, responder.id)))), true;
    }

    /** A third message. */
    method HandleHs3(src: Addr, m: Msg3, now: nat) returns (sent: Option<Output>, toEnd: bool)
      modifies this
      ensures Outcome(State(), sent, toEnd) == OnHs3(policy, old(State()), src, m, now)
    {
      if src !in pending { return None, false; }
      var responder := pending[src].responder;
      pending := pending - {src};
      if ReadsMsg3(responder, m) {
        if !policy.gate(m.key) { return None, false; }
        var channel := new DataChannel(ServerChannel(m.payload.value, policy.window));
        var wire := channel.SealEnvelope(Pong);
        var conn := Conn(src, responder.id, m.payload.value, m.key, channel.Value(), [], [], {}, false);
        peers := peers[src := Peer(|conns|, now)];
        conns := conns + [conn];
        return Some(Output(src, wire)), true;
      }
      return None, true;
    }

    /** What one envelope does to its connection, and the datagram sealed in reply. */
    method Serve(conn: Conn, env: Envelope) returns (c: Conn, reply: Option<Dgram>)
      ensures
        var (c', answer) := PeerTable.Dispatch(policy, conn, env);
        c == c' && reply == if answer.None? then None else Some(Data(Sealed(conn.channel, answer.value)))
    {
      c, reply := conn, None;
      match env {
      case Ping =>
        var channel := new DataChannel(c.channel);
        var wire := channel.SealEnvelope(Pong);
        return c.(channel := channel.Value()), Some(wire);
      case Request(req) =>
        var channel := new DataChannel(c.channel);
        var wire := channel.SealEnvelope(Response(policy.service(req)));
        return c.(channel := channel.Value()), Some(wire);
      case Subscribe(topic, capability) =>
        if !policy.verifyTopic(capability, topic) {
          return Enqueue(c, SubscribeError(topic)), None;
        }
        c := c.(granted := c.granted + {(capability, topic)});
        if policy.eventSource(topic) {
          c := c.(forwarders := c.forwarders + [topic]);
        }
      case _ =>
      }
    }

    /** A data record. */
    method HandleData(src: Addr, d: Dgram, now: nat) returns (sent: Option<Output>, toEnd: bool)
      modifies this
      ensures Outcome(State(), sent, toEnd) == OnData(policy, old(State()), src, d, now)
    {
      hide PeerTable.Dispatch;
      if src !in peers || peers[src].conn >= |conns| { return None, false; }
      var k := peers[src].conn;
      peers := peers[src := peers[src].(lastSeen := now)];
      var c := conns[k];
      var channel := new DataChannel(c.channel);
      var plain := channel.OpenDatagram(d);
      c := c.(channel := channel.Value());
      conns := conns[k := c];
      if plain.value.None? { return None, false; }
      var reply;
      c, reply := Serve(c, plain.value.value);
      conns := conns[k := c];
      return if reply.None? then None else Some(Output(src, reply.value)), true;
    }

    /** The part before the clean-up. */
    method Dispatch(src: Addr, d: Dgram, load: bool, now: nat) returns (sent: Option<Output>, toEnd: bool)
      modifies this
      ensures Outcome(State(), sent, toEnd) == Route(policy, old(State()), src, d, load, now)
    {
      hide OnHs1, OnHs3, OnData;
      match d
      case Undecodable => return None, false;
      case Hs1Malformed => sent, toEnd := HandleHs1(src, d, load, now);
      case Hs1(_, _) => sent, toEnd := HandleHs1(src, d, load, now);
      case Hs3(m) => sent, toEnd := HandleHs3(src, m, now);
      case Data(_) => sent, toEnd := HandleData(src, d, now);
      case _ => return None, true;
    }

    /** Drop the half-open handshakes of 5 s and the peers idle for 120 s. */
    method CleanUp()
      modifies this
      ensures State() == Sweep(old(State()), old(clock))
    {
      pending := RetainPending(pending, clock);
      peers := RetainPeers(peers, clock);
    }

    /** One datagram. `before` and `after` are the time that passes on the way. */
    method HandleDgram(src: Addr, d: Dgram, load: bool, before: nat, after: nat) returns (sent: Option<Output>)
      modifies this
      ensures
        var out := PeerTable.HandleDgram(policy, old(State()), src, d, load, before, after);
        State() == out.server && sent == out.sent
    {
      hide Route, Sweep;
      var toEnd;
      var now := clock + before;
      sent, toEnd := Dispatch(src, d, load, now);
      clock := now + after;
      if toEnd {
        CleanUp();
      }
    }
  }
}
