/**
 The UDP transport as a whole: one server, any number of honest clients, and a
 network in between that loses, repeats and reorders, and on which anybody may
 send anything that does not need an honest party's secrets.

 A datagram stays on the network once sent, so a run may deliver it never, once
 or many times, in any order. `strict` runs keep an honest datagram's source
 address as it was; other runs may relabel it.
 */
module Protocol {
  import opened Common
  import opened Wire
  import opened DataPlane
  import opened PeerTable
  import opened ClientHandshake

  datatype Client = Client(addr: Addr, config: ClientConfig, phase: Phase)

  /** `sender` is the honest client's address, or `None` for the server. */
  datatype Packet = Packet(sender: Option<Addr>, d: Dgram)

  /** `owners[n]` is the client that drew seed number `n`. `sealed` lists every
      record sealed by the server or an honest client, in order. */
  datatype World = World(
    server: Server, clients: seq<Client>, owners: seq<nat>, net: set<Packet>, sealed: seq<Record>)

  const GENESIS := World(START, [], [], {}, [])

  /** Sendable by anybody: everything but third messages and records that need
      an honest party's static key, ephemeral key or seed. */
  predicate Forgeable(d: Dgram) {
    match d
    case Hs3(m) =>
      m.Msg3? ==> m.key.RogueKey? && m.initiator.Rogue? && (m.payload.Some? ==> m.payload.value.Rogue?)
    case Data(r) => r.Record? ==> r.key.seed.Rogue?
    case _ => true
  }

  /** A genuine cookie is one the server has sent out: nobody else can make it. */
  predicate Known(s: Server, cookie: Option<Cookie>) {
    cookie.Some? && cookie.value.Minted? ==> cookie.value in s.issued
  }

  predicate Deliverable(w: World, sender: Option<Addr>, d: Dgram) {
    (Forgeable(d) && (d.CookieMsg? ==> Known(w.server, d.challenge))) || Packet(sender, d) in w.net
  }

  datatype WorldStep =
    | Spawn(addr: Addr, config: ClientConfig)
    | ClientGoes(c: nat, ok: bool)
    | ClientHears(c: nat, sender: Option<Addr>, d: Dgram, after: nat)
    | ClientWaitsOut(c: nat)
    | ClientSocketFails(c: nat, after: nat)
    | ClientSeals(c: nat, env: Envelope)
    | ServerHears(sender: Option<Addr>, src: Addr, d: Dgram, load: bool, before: nat, after: nat)
    | ServerWorks(ev: ServerEvent)

  /** What it means for a client to go on: a fresh draw, or the next send. */
  function GoesOn(w: World, c: nat, ok: bool): ClientEvent
    requires c < |w.clients|
  {
    if w.clients[c].phase.Opening? then Draw(|w.owners|) else Go(ok)
  }

  /** One move of a client that is still shaking hands. */
  function MoveClient(w: World, c: nat, ev: ClientEvent): World
    requires c < |w.clients|
  {
    var cl := w.clients[c];
    var out := ClientStep(cl.config, cl.phase, ev);
    w.(clients := w.clients[c := cl.(phase := out.phase)],
       owners := if cl.phase.Opening? && out.phase.SendHs1? then w.owners + [c] else w.owners,
       net := if out.sent.Some? then w.net + {Packet(Some(cl.addr), out.sent.value)} else w.net)
  }

  /** A datagram reaches a client, before or after its handshake is done. */
  function Hear(w: World, c: nat, d: Dgram, after: nat): World
    requires c < |w.clients|
  {
    match w.clients[c].phase
    case Connected(n, ch) =>
      w.(clients := w.clients[c := w.clients[c].(phase := Connected(n, AfterOpen(ch, d)))])
    case _ => MoveClient(w, c, Receive(d, after))
  }

  /** A connected client's pump seals and sends an envelope. */
  function ClientSend(w: World, c: nat, env: Envelope): World
    requires c < |w.clients| && w.clients[c].phase.Connected?
  {
    var cl := w.clients[c];
    var r := Sealed(cl.phase.channel, env);
    w.(clients := w.clients[c := cl.(phase := Connected(cl.phase.seed, AfterSeal(cl.phase.channel)))],
       net := w.net + {Packet(Some(cl.addr), Data(r))},
       sealed := w.sealed + [r])
  }

  function ServerMoves(p: Policy, w: World, ev: ServerEvent): World {
    var out := Step(p, w.server, ev);
    w.(server := out.server,
       net := if out.sent.Some? then w.net + {Packet(None, out.sent.value.dgram)} else w.net,
       sealed := if out.sent.Some? && out.sent.value.dgram.Data?
                 then w.sealed + [out.sent.value.dgram.record] else w.sealed)
  }

  predicate Allowed(strict: bool, w: World, step: WorldStep) {
    match step
    case Spawn(_, _) => true
    case ClientGoes(c, _) => c < |w.clients|
    case ClientHears(c, sender, d, _) => c < |w.clients| && Deliverable(w, sender, d)
    case ClientWaitsOut(c) => c < |w.clients|
    case ClientSocketFails(c, _) => c < |w.clients|
    case ClientSeals(c, _) => c < |w.clients| && w.clients[c].phase.Connected?
    case ServerHears(sender, src, d, _, _, _) =>
      Deliverable(w, sender, d) && (strict ==> Forgeable(d) || sender == Some(src))
    case ServerWorks(ev) => !ev.Arrive?
  }

  /** One step; a step that is not allowed changes nothing. */
  function Act(p: Policy, strict: bool, w: World, step: WorldStep): World {
    if !Allowed(strict, w, step) then w
    else
      match step
      case Spawn(addr, config) => w.(clients := w.clients + [Client(addr, config, Opening(0))])
      case ClientGoes(c, ok) => MoveClient(w, c, GoesOn(w, c, ok))
      case ClientHears(c, _, d, after) => Hear(w, c, d, after)
      case ClientWaitsOut(c) => MoveClient(w, c, Expire)
      case ClientSocketFails(c, after) => MoveClient(w, c, RecvError(after))
      case ClientSeals(c, env) => ClientSend(w, c, env)
      case ServerHears(_, src, d, load, before, after) => ServerMoves(p, w, Arrive(src, d, load, before, after))
      case ServerWorks(ev) => ServerMoves(p, w, ev)
  }

  function RunWorld(p: Policy, strict: bool, steps: seq<WorldStep>): World {
    if steps == [] then GENESIS
    else Act(p, strict, RunWorld(p, strict, steps[..|steps| - 1]), steps[|steps| - 1])
  }
}
