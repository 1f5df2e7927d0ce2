/**
 The UDP server (src/udp/server.rs) as a state machine over its two tables.

 `HandleDgram` is one call of `handle_dgram`; the other events are the turns of
 the tasks it shares state with: the cookie rotation, the per-peer sealer tasks
 and the subscription forwarders. Time moves only forward, by the amounts the
 events carry, in milliseconds.
 */
module PeerTable {
  import opened Common
  import opened Wire
  import opened DataPlane

  const MAX_PEERS: nat := 1024
  const MAX_PENDING: nat := 2048
  const PENDING_SOFT_LIMIT: nat := 256
  const PENDING_TIMEOUT: nat := 5000
  const PEER_IDLE_TIMEOUT: nat := 120000

  /** What the operator and the service supply. */
  datatype Policy = Policy(
    gate: StaticKey -> bool,
    verifyTopic: (Option<Capability>, Topic) -> bool,
    eventSource: Topic -> bool,
    service: RpcRequest -> RpcResponse,
    window: nat)

  /** A half-open handshake. `proof` is the cookie that was verified before it
      was admitted, if the admission asked for one. */
  datatype Pending = Pending(responder: Responder, createdAt: nat, proof: Option<Cookie>)

  datatype Peer = Peer(conn: nat, lastSeen: nat)

  /** A data channel together with the sealer task that drains its queue. It
      outlives its entry in `peers` for as long as somebody holds it, so the
      state keeps every one ever made. `granted` records the topic checks that
      passed on this connection. */
  datatype Conn = Conn(
    addr: Addr, responder: nat, seed: Nonce, clientKey: StaticKey, channel: Channel,
    queue: seq<Envelope>, forwarders: seq<Topic>,
    granted: set<(Option<Capability>, Topic)>, sealerEnded: bool)

  /** `issued` is every cookie sent out so far. */
  datatype Server = Server(
    pending: map<Addr, Pending>, peers: map<Addr, Peer>, conns: seq<Conn>,
    epoch: nat, issued: set<Cookie>, nextResponder: nat, clock: nat)

  const START := Server(map[], map[], [], 0, {}, 0, 0)

  datatype Output = Output(dst: Addr, dgram: Dgram)

  /** `toEnd`: control reached the clean-up at the bottom of `handle_dgram`. */
  datatype Outcome = Outcome(server: Server, sent: Option<Output>, toEnd: bool)

  // ---- Hs1 -----------------------------------------------------------------

  datatype Hs1Result =
    | Ignored
    | Challenge(cookie: Cookie)
    | Accepted(responder: Responder, msg2: Msg2, proof: Option<Cookie>)

  /** `process_hs1`: under load a cookie comes first, whatever message 1 is. */
  function ProcessHs1(d: Dgram, src: Addr, epoch: nat, underLoad: bool, id: nat): Hs1Result
    requires d.Hs1? || d.Hs1Malformed?
  {
    if d.Hs1Malformed? then Ignored
    else if underLoad && (d.cookie.None? || !CookieVerifies(epoch, src, d.cookie.value)) then
      Challenge(Minted(epoch, src))
    else if d.msg1.BadMsg1? then Ignored
    else
      Accepted(Responder(id, d.msg1.initiator), Msg2(d.msg1.initiator, id),
               if underLoad then d.cookie else None)
  }

  predicate EffectiveLoad(s: Server, load: bool) {
    load || |s.pending| >= PENDING_SOFT_LIMIT
  }

  function OnHs1(s: Server, src: Addr, d: Dgram, load: bool, now: nat): Outcome
    requires d.Hs1? || d.Hs1Malformed?
  {
    if |s.peers| >= MAX_PEERS then Outcome(s, None, false)
    else
      match ProcessHs1(d, src, s.epoch, EffectiveLoad(s, load), s.nextResponder)
      case Ignored => Outcome(s, None, true)
      case Challenge(cookie) =>
        Outcome(s.(issued := s.issued + {cookie}), Some(Output(src, CookieMsg(Some(cookie)))), true)
      case Accepted(responder, msg2, proof) =>
        var s := s.(nextResponder := s.nextResponder + 1);
        if |s.pending| >= MAX_PENDING && src !in s.pending then Outcome(s, None, false)
        else
          Outcome(s.(pending := s.pending[src := Pending(responder, now, proof)]),
                  Some(Output(src, Hs2(msg2))), true)
  }

  /** An admission stores a responder with the next number, within the caps;
      otherwise the tables stay as they are. Without a verified cookie it
      happens only below the soft limit. */
  lemma Hs1Effect(s: Server, src: Addr, d: Dgram, load: bool, now: nat)
    requires d.Hs1? || d.Hs1Malformed?
    ensures
      var out := OnHs1(s, src, d, load, now);
      && out.server.peers == s.peers && out.server.conns == s.conns
      && out.server.epoch == s.epoch && out.server.clock == s.clock
      && s.nextResponder <= out.server.nextResponder
      && s.issued <= out.server.issued
      && (out.sent.None? || out.sent.value.dgram.CookieMsg? ==> out.server.pending == s.pending)
      && (out.sent.Some? ==>
            && out.sent.value.dst == src
            && (out.sent.value.dgram.CookieMsg? || out.sent.value.dgram.Hs2?))
      && (out.sent.Some? && out.sent.value.dgram.Hs2? ==>
            && out.server.nextResponder == s.nextResponder + 1
            && src in out.server.pending
            && var e := out.server.pending[src];
               && out.server.pending == s.pending[src := e]
               && e.createdAt == now
               && e.responder.id == s.nextResponder
               && out.sent.value.dgram.msg2 == Msg2(e.responder.initiator, e.responder.id)
               && |s.peers| < MAX_PEERS
               && (|s.pending| < MAX_PENDING || src in s.pending)
               && (if EffectiveLoad(s, load)
                   then d.Hs1? && e.proof == d.cookie && e.proof.Some? && CookieVerifies(s.epoch, src, e.proof.value)
                   else e.proof.None?))
  {
  }

  // ---- Hs3 -----------------------------------------------------------------

  /** The stored responder reads the message and the gate admits the key. */
  predicate Completes(p: Policy, s: Server, src: Addr, m: Msg3) {
    src in s.pending && ReadsMsg3(s.pending[src].responder, m) && p.gate(m.key)
  }

  /** The connection a completed handshake leaves, its ready record sealed. */
  function NewConn(p: Policy, src: Addr, m: Msg3): Conn
    requires m.Msg3? && m.payload.Some?
  {
    var channel := AfterSeal(ServerChannel(m.payload.value, p.window));
    Conn(src, m.responder, m.payload.value, m.key, channel, [], [], {}, false)
  }

  /** The entry is taken out of `pending` before anything is checked. */
  function OnHs3(p: Policy, s: Server, src: Addr, m: Msg3, now: nat): Outcome {
    if src !in s.pending then Outcome(s, None, false)
    else
      var s' := s.(pending := s.pending - {src});
      if !ReadsMsg3(s.pending[src].responder, m) then Outcome(s', None, true)
      else if !p.gate(m.key) then Outcome(s', None, false)
      else
        var ready := Sealed(ServerChannel(m.payload.value, p.window), Pong);
        Outcome(s'.(conns := s.conns + [NewConn(p, src, m)], peers := s.peers[src := Peer(|s.conns|, now)]),
                Some(Output(src, Data(ready))), true)
  }

  // ---- Data ----------------------------------------------------------------

  /** What one envelope does to its connection, and the reply sealed at once. */
  function Dispatch(p: Policy, c: Conn, env: Envelope): (Conn, Option<Envelope>) {
    match env
    case Ping => (c.(channel := AfterSeal(c.channel)), Some(Pong))
    case Request(req) => (c.(channel := AfterSeal(c.channel)), Some(Response(p.service(req))))
    case Subscribe(topic, capability) =>
      if !p.verifyTopic(capability, topic) then (Enqueue(c, SubscribeError(topic)), None)
      else
        var c := c.(granted := c.granted + {(capability, topic)});
        (if p.eventSource(topic) then c.(forwarders := c.forwarders + [topic]) else c, None)
    case _ => (c, None)
  }

  /** Sending to a sealer task that is gone is a no-op. */
  function Enqueue(c: Conn, env: Envelope): Conn {
    if c.sealerEnded then c else c.(queue := c.queue + [env])
  }

  /** A connection after one datagram, and the reply to it. */
  function AfterData(p: Policy, c: Conn, d: Dgram): (Conn, Option<Envelope>) {
    var c' := c.(channel := AfterOpen(c.channel, d));
    match Opened(c.channel, d)
    case None => (c', None)
    case Some(env) => Dispatch(p, c', env)
  }

  /** An unreadable datagram from a known source still renews its idle time, and
      still returns early. (A peer's index is always in range: `PeersOk`.) */
  function OnData(p: Policy, s: Server, src: Addr, d: Dgram, now: nat): Outcome {
    if src !in s.peers || s.peers[src].conn >= |s.conns| then Outcome(s, None, false)
    else
      var k := s.peers[src].conn;
      var c := s.conns[k];
      var (c', reply) := AfterData(p, c, d);
      Outcome(s.(peers := s.peers[src := Peer(k, now)], conns := s.conns[k := c']),
              if reply.None? then None else Some(Output(src, Data(Sealed(c.channel, reply.value)))),
              Opened(c.channel, d).Some?)
  }

  // ---- The whole call ------------------------------------------------------

  function Sweep(s: Server, now: nat): Server {
    s.(pending := map a | a in s.pending && now - s.pending[a].createdAt < PENDING_TIMEOUT :: s.pending[a],
       peers := map a | a in s.peers && now - s.peers[a].lastSeen < PEER_IDLE_TIMEOUT :: s.peers[a])
  }

  function Route(p: Policy, s: Server, src: Addr, d: Dgram, load: bool, now: nat): Outcome {
    match d
    case Undecodable => Outcome(s, None, false)
    case Hs1Malformed => OnHs1(s, src, d, load, now)
    case Hs1(_, _) => OnHs1(s, src, d, load, now)
    case Hs3(m) => OnHs3(p, s, src, m, now)
    case Data(_) => OnData(p, s, src, d, now)
    case Hs2(_) => Outcome(s, None, true)
    case CookieMsg(_) => Outcome(s, None, true)
  }

  /** The clean-up, for the calls that get that far. */
  function Finish(out: Outcome, now: nat): Outcome {
    var s := out.server.(clock := now);
    out.(server := if out.toEnd then Sweep(s, now) else s)
  }

  /** `before` passes until the tables are touched, `after` (the service's work
      included) until the clean-up reads the clock. */
  function HandleDgram(p: Policy, s: Server, src: Addr, d: Dgram, load: bool, before: nat, after: nat): Outcome {
    var now := s.clock + before;
    Finish(Route(p, s, src, d, load, now), now + after)
  }

  // ---- The tasks around it -------------------------------------------------

  /** Somebody can still queue an envelope for this connection. */
  predicate HasSender(s: Server, k: nat)
    requires k < |s.conns|
  {
    s.conns[k].forwarders != [] || exists a | a in s.peers :: s.peers[a].conn == k
  }

  /** The sealer task of `k`: seal the head of the queue, or end when the queue
      is empty and every sender is gone, or wait. */
  function SealerTurn(s: Server, k: nat): Outcome
    requires k < |s.conns|
  {
    var c := s.conns[k];
    if c.sealerEnded then Outcome(s, None, false)
    else if c.queue != [] then
      Outcome(s.(conns := s.conns[k := c.(queue := c.queue[1..], channel := AfterSeal(c.channel))]),
              Some(Output(c.addr, Data(Sealed(c.channel, c.queue[0])))), false)
    else if HasSender(s, k) then Outcome(s, None, false)
    else Outcome(s.(conns := s.conns[k := c.(sealerEnded := true)]), None, false)
  }

  /** Forwarder `f` of connection `k` takes an event off the broadcast. */
  function ForwarderTurn(s: Server, k: nat, f: nat, ev: TopicEvent): Server
    requires k < |s.conns| && f < |s.conns[k].forwarders|
  {
    var c := s.conns[k];
    if ev.topic != c.forwarders[f] then s
    else if c.sealerEnded then EndForwarder(s, k, f)
    else s.(conns := s.conns[k := Enqueue(c, Event(ev))])
  }

  function EndForwarder(s: Server, k: nat, f: nat): Server
    requires k < |s.conns| && f < |s.conns[k].forwarders|
  {
    var c := s.conns[k];
    s.(conns := s.conns[k := c.(forwarders := c.forwarders[..f] + c.forwarders[f + 1..])])
  }

  // ---- Runs ----------------------------------------------------------------

  datatype ServerEvent =
    | Arrive(src: Addr, d: Dgram, load: bool, before: nat, after: nat)
    | Rotate
    | SealerRuns(conn: nat)
    | Publish(conn: nat, fwd: nat, ev: TopicEvent)
    | SourceClosed(conn: nat, fwd: nat)

  /** A genuine cookie in a datagram was sent out before: the MAC cannot be forged. */
  predicate Possible(s: Server, ev: ServerEvent) {
    match ev
    case Arrive(_, d, _, _, _) => d.Hs1? && d.cookie.Some? && d.cookie.value.Minted? ==> d.cookie.value in s.issued
    case Rotate => true
    case SealerRuns(k) => k < |s.conns|
    case Publish(k, f, _) => k < |s.conns| && f < |s.conns[k].forwarders|
    case SourceClosed(k, f) => k < |s.conns| && f < |s.conns[k].forwarders|
  }

  /** One event; an impossible one leaves the server as it is. */
  function Step(p: Policy, s: Server, ev: ServerEvent): Outcome {
    if !Possible(s, ev) then Outcome(s, None, false)
    else
      match ev
      case Arrive(src, d, load, before, after) => HandleDgram(p, s, src, d, load, before, after)
      case Rotate => Outcome(s.(epoch := s.epoch + 1), None, false)
      case SealerRuns(k) => SealerTurn(s, k)
      case Publish(k, f, ev) => Outcome(ForwarderTurn(s, k, f, ev), None, false)
      case SourceClosed(k, f) => Outcome(EndForwarder(s, k, f), None, false)
  }

  /** The server after a run of events, from a given state. */
  function RunFrom(p: Policy, s: Server, evs: seq<ServerEvent>): Server {
    if evs == [] then s
    else Step(p, RunFrom(p, s, evs[..|evs| - 1]), evs[|evs| - 1]).server
  }

  function Run(p: Policy, evs: seq<ServerEvent>): Server {
    RunFrom(p, START, evs)
  }

  /** The datagrams that reach the clean-up: ignored types always; a first message
      unless the peers are full, or it would be admitted and the half-open
      handshakes are full; a third message that finds a half-open handshake, unless
      the gate turns its key away; data that opens. */
  predicate ReachesCleanUp(p: Policy, s: Server, ev: ServerEvent) {
    && ev.Arrive? && Possible(s, ev)
    && match ev.d
       case Undecodable => false
       case Hs1Malformed => |s.peers| < MAX_PEERS
       case Hs1(msg1, cookie) =>
         && |s.peers| < MAX_PEERS
         && (|s.pending| < MAX_PENDING || ev.src in s.pending || msg1.BadMsg1?
             || cookie.None? || !CookieVerifies(s.epoch, ev.src, cookie.value))
       case Hs2(_) => true
       case Hs3(m) => ev.src in s.pending && (ReadsMsg3(s.pending[ev.src].responder, m) ==> p.gate(m.key))
       case CookieMsg(_) => true
       case Data(_) =>
         && ev.src in s.peers && s.peers[ev.src].conn < |s.conns|
         && Opened(s.conns[s.peers[ev.src].conn].channel, ev.d).Some?
  }

  /** What a datagram does to a connection that exists: nothing, unless it is
      data from the address whose entry leads there. */
  lemma RouteConn(p: Policy, s: Server, src: Addr, d: Dgram, load: bool, now: nat, k: nat)
    requires k < |s.conns|
    ensures
      var s' := Route(p, s, src, d, load, now).server;
      && |s.conns| <= |s'.conns|
      && s'.conns[k] == if d.Data? && src in s.peers && s.peers[src].conn == k
                        then AfterData(p, s.conns[k], d).0 else s.conns[k]
  {
    hide OnHs1, AfterData, NewConn;
    if d.Hs1? || d.Hs1Malformed? {
      Hs1Effect(s, src, d, load, now);
    }
  }

  /** The clean-up works on the two tables and nothing else. */
  lemma FinishEffect(out: Outcome, now: nat)
    ensures
      var s, s' := out.server, Finish(out, now).server;
      && Finish(out, now).sent == out.sent
      && s'.conns == s.conns && s'.epoch == s.epoch && s'.issued == s.issued
      && s'.nextResponder == s.nextResponder && s'.clock == now
      && (forall a | a in s'.pending :: a in s.pending && s'.pending[a] == s.pending[a])
      && (forall a | a in s'.peers :: a in s.peers && s'.peers[a] == s.peers[a])
  {
  }
}
