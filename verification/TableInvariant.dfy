/** What every event keeps true of the tables and the connections behind them. */
module TableInvariant {
  import opened Common
  import opened Wire
  import opened DataPlane
  import opened PeerTable

  predicate Granted(c: Conn, topic: Topic) {
    exists g | g in c.granted :: g.1 == topic
  }

  /** One connection on its own: admitted by the gate, keyed from its seed in
      the server's role, every topic it forwards or has queued was granted by
      the topic check, and a finished sealer has nothing left to serve. */
  predicate ConnOk(p: Policy, c: Conn) {
    && p.gate(c.clientKey)
    && c.channel.sealer.key == RecordKey(c.seed, S2C)
    && c.channel.opener.key == RecordKey(c.seed, C2S)
    && (forall g | g in c.granted :: p.verifyTopic(g.0, g.1))
    && (forall t | t in c.forwarders :: Granted(c, t))
    && (forall e | e in c.queue && e.Event? :: Granted(c, e.event.topic))
    && (c.sealerEnded ==> c.queue == [] && c.forwarders == [])
  }

  /** What stays with a connection for good. */
  predicate SameIdentity(c: Conn, c': Conn) {
    c.addr == c'.addr && c.responder == c'.responder && c.seed == c'.seed && c.clientKey == c'.clientKey
  }

  /** Responder identities: each is handed out once and lives in one place, a
      pending entry or the connection it became. */
  predicate IdsOk(s: Server) {
    && (forall a | a in s.pending :: s.pending[a].responder.id < s.nextResponder)
    && (forall a, b | a in s.pending && b in s.pending && a != b ::
          s.pending[a].responder.id != s.pending[b].responder.id)
    && (forall k | 0 <= k < |s.conns| :: s.conns[k].responder < s.nextResponder)
    && (forall j, k | 0 <= j < k < |s.conns| :: s.conns[j].responder != s.conns[k].responder)
    && (forall a, k | a in s.pending && 0 <= k < |s.conns| ::
          s.pending[a].responder.id != s.conns[k].responder)
  }

  /** A peer's entry leads to a connection for its own address whose sealer runs. */
  predicate PeersOk(s: Server) {
    forall a | a in s.peers ::
      && s.peers[a].conn < |s.conns|
      && s.conns[s.peers[a].conn].addr == a
      && !s.conns[s.peers[a].conn].sealerEnded
  }

  predicate TableInv(p: Policy, s: Server) {
    && IdsOk(s)
    && PeersOk(s)
    && forall k | 0 <= k < |s.conns| :: ConnOk(p, s.conns[k])
  }

  // ---- One handler at a time -----------------------------------------------

  lemma OnHs1Keeps(p: Policy, s: Server, src: Addr, d: Dgram, load: bool, now: nat)
    requires d.Hs1? || d.Hs1Malformed?
    requires TableInv(p, s)
    ensures TableInv(p, OnHs1(s, src, d, load, now).server)
  {
    hide OnHs1;
    Hs1Effect(s, src, d, load, now);
  }

  lemma DropPendingKeeps(p: Policy, s: Server, src: Addr)
    requires TableInv(p, s)
    ensures TableInv(p, s.(pending := s.pending - {src}))
  {
  }

  lemma InstallKeeps(p: Policy, s: Server, c: Conn, now: nat)
    requires TableInv(p, s) && ConnOk(p, c) && !c.sealerEnded && c.responder < s.nextResponder
    requires forall a | a in s.pending :: s.pending[a].responder.id != c.responder
    requires forall k | 0 <= k < |s.conns| :: s.conns[k].responder != c.responder
    ensures TableInv(p, s.(conns := s.conns + [c], peers := s.peers[c.addr := Peer(|s.conns|, now)]))
  {
  }

  lemma OnHs3Keeps(p: Policy, s: Server, src: Addr, m: Msg3, now: nat)
    requires TableInv(p, s)
    ensures TableInv(p, OnHs3(p, s, src, m, now).server)
  {
    if src in s.pending {
      DropPendingKeeps(p, s, src);
      if Completes(p, s, src, m) {
        InstallKeeps(p, s.(pending := s.pending - {src}), NewConn(p, src, m), now);
      }
    }
  }

  lemma AfterDataKeeps(p: Policy, c: Conn, d: Dgram)
    requires ConnOk(p, c) && !c.sealerEnded
    ensures
      var c' := AfterData(p, c, d).0;
      ConnOk(p, c') && !c'.sealerEnded && SameIdentity(c, c')
  {
    var c' := AfterData(p, c, d).0;
    var env := Opened(c.channel, d);
    if env.Some? && env.value.Subscribe? && p.verifyTopic(env.value.capability, env.value.topic) {
      assert (env.value.capability, env.value.topic) in c'.granted;
      assert c.granted <= c'.granted;
      forall t | t in c.forwarders ensures Granted(c', t) {
        var g :| g in c.granted && g.1 == t;
        assert g in c'.granted;
      }
    }
  }

  /** Replacing one connection by another with the same identity. */
  lemma ReplaceKeeps(p: Policy, s: Server, k: nat, c: Conn, peers: map<Addr, Peer>)
    requires TableInv(p, s) && k < |s.conns|
    requires ConnOk(p, c) && c.addr == s.conns[k].addr && c.responder == s.conns[k].responder
    requires forall a | a in peers :: a in s.peers && peers[a].conn == s.peers[a].conn
    requires c.sealerEnded ==> forall a | a in peers :: peers[a].conn != k
    ensures TableInv(p, s.(conns := s.conns[k := c], peers := peers))
  {
  }

  lemma OnDataKeeps(p: Policy, s: Server, src: Addr, d: Dgram, now: nat)
    requires TableInv(p, s)
    ensures TableInv(p, OnData(p, s, src, d, now).server)
  {
    hide AfterData, ConnOk, IdsOk;
    if src in s.peers {
      var k := s.peers[src].conn;
      AfterDataKeeps(p, s.conns[k], d);
      ReplaceKeeps(p, s, k, AfterData(p, s.conns[k], d).0, s.peers[src := Peer(k, now)]);
    }
  }

  lemma RouteKeeps(p: Policy, s: Server, src: Addr, d: Dgram, load: bool, now: nat)
    requires TableInv(p, s)
    ensures TableInv(p, Route(p, s, src, d, load, now).server)
  {
    match d
    case Hs1Malformed => OnHs1Keeps(p, s, src, d, load, now);
    case Hs1(_, _) => OnHs1Keeps(p, s, src, d, load, now);
    case Hs3(m) => OnHs3Keeps(p, s, src, m, now);
    case Data(_) => OnDataKeeps(p, s, src, d, now);
    case _ =>
  }

  lemma FinishKeeps(p: Policy, out: Outcome, now: nat)
    requires TableInv(p, out.server)
    ensures TableInv(p, Finish(out, now).server)
  {
  }

  lemma HandleKeeps(p: Policy, s: Server, src: Addr, d: Dgram, load: bool, before: nat, after: nat)
    requires TableInv(p, s)
    ensures TableInv(p, HandleDgram(p, s, src, d, load, before, after).server)
  {
    hide Route, Finish, TableInv;
    var now := s.clock + before;
    RouteKeeps(p, s, src, d, load, now);
    FinishKeeps(p, Route(p, s, src, d, load, now), now + after);
  }

  lemma SealerTurnKeeps(p: Policy, s: Server, k: nat)
    requires TableInv(p, s) && k < |s.conns|
    ensures TableInv(p, SealerTurn(s, k).server)
  {
    var c := SealerTurn(s, k).server.conns[k];
    assert ConnOk(p, s.conns[k]);
    assert forall e | e in c.queue :: e in s.conns[k].queue;
    assert forall t :: Granted(c, t) <==> Granted(s.conns[k], t);
    ReplaceKeeps(p, s, k, c, s.peers);
  }

  lemma EndForwarderKeeps(p: Policy, s: Server, k: nat, f: nat)
    requires TableInv(p, s) && k < |s.conns| && f < |s.conns[k].forwarders|
    ensures TableInv(p, EndForwarder(s, k, f))
  {
    var c := EndForwarder(s, k, f).conns[k];
    assert ConnOk(p, s.conns[k]);
    assert forall t | t in c.forwarders :: t in s.conns[k].forwarders;
    assert forall t :: Granted(c, t) <==> Granted(s.conns[k], t);
    ReplaceKeeps(p, s, k, c, s.peers);
  }

  lemma ForwarderTurnKeeps(p: Policy, s: Server, k: nat, f: nat, ev: TopicEvent)
    requires TableInv(p, s) && k < |s.conns| && f < |s.conns[k].forwarders|
    ensures TableInv(p, ForwarderTurn(s, k, f, ev))
  {
    assert ConnOk(p, s.conns[k]);
    if ev.topic == s.conns[k].forwarders[f] {
      var c := Enqueue(s.conns[k], Event(ev));
      assert forall t :: Granted(c, t) <==> Granted(s.conns[k], t);
      ReplaceKeeps(p, s, k, c, s.peers);
    }
  }

  lemma StepKeeps(p: Policy, s: Server, ev: ServerEvent)
    requires TableInv(p, s)
    ensures TableInv(p, Step(p, s, ev).server)
  {
    if Possible(s, ev) {
      match ev
      case Arrive(src, d, load, before, after) => HandleKeeps(p, s, src, d, load, before, after);
      case Rotate =>
      case SealerRuns(k) => SealerTurnKeeps(p, s, k);
      case Publish(k, f, e) => ForwarderTurnKeeps(p, s, k, f, e);
      case SourceClosed(k, f) => EndForwarderKeeps(p, s, k, f);
    }
  }

  lemma {:induction false} RunFromKeeps(p: Policy, s: Server, evs: seq<ServerEvent>)
    requires TableInv(p, s)
    ensures TableInv(p, RunFrom(p, s, evs))
  {
    if evs != [] {
      RunFromKeeps(p, s, evs[..|evs| - 1]);
      StepKeeps(p, RunFrom(p, s, evs[..|evs| - 1]), evs[|evs| - 1]);
    }
  }

  /** The invariant holds after every run. */
  lemma RunKeeps(p: Policy, evs: seq<ServerEvent>)
    ensures TableInv(p, Run(p, evs))
  {
    RunFromKeeps(p, START, evs);
  }

  // ---- What a step leaves alone --------------------------------------------

  /** Connections are appended and advanced, never removed or re-identified. */
  predicate Grows(cs: seq<Conn>, cs': seq<Conn>) {
    |cs| <= |cs'| && forall k | 0 <= k < |cs| :: SameIdentity(cs[k], cs'[k])
  }

  lemma RouteGrows(p: Policy, s: Server, src: Addr, d: Dgram, load: bool, now: nat)
    ensures
      var s' := Route(p, s, src, d, load, now).server;
      Grows(s.conns, s'.conns) && s.nextResponder <= s'.nextResponder
  {
    forall k | 0 <= k < |s.conns| ensures SameIdentity(s.conns[k], AfterData(p, s.conns[k], d).0) {
    }
    hide OnHs1, AfterData, NewConn;
    if d.Hs1? || d.Hs1Malformed? {
      Hs1Effect(s, src, d, load, now);
    }
  }

  lemma StepGrows(p: Policy, s: Server, ev: ServerEvent)
    ensures
      var s' := Step(p, s, ev).server;
      Grows(s.conns, s'.conns) && s.nextResponder <= s'.nextResponder
  {
    hide Route;
    if ev.Arrive? {
      RouteGrows(p, s, ev.src, ev.d, ev.load, s.clock + ev.before);
    }
  }

  lemma {:induction false} RunFromGrows(p: Policy, s: Server, evs: seq<ServerEvent>)
    ensures
      var s' := RunFrom(p, s, evs);
      Grows(s.conns, s'.conns) && s.nextResponder <= s'.nextResponder
  {
    if evs != [] {
      RunFromGrows(p, s, evs[..|evs| - 1]);
      StepGrows(p, RunFrom(p, s, evs[..|evs| - 1]), evs[|evs| - 1]);
    }
  }

  /** A run is its first part followed by the rest. */
  lemma {:induction false} RunSplits(p: Policy, s: Server, evs: seq<ServerEvent>, more: seq<ServerEvent>)
    ensures RunFrom(p, s, evs + more) == RunFrom(p, RunFrom(p, s, evs), more)
  {
    if more == [] {
      assert evs + more == evs;
    } else {
      var all := evs + more;
      assert all[..|all| - 1] == evs + more[..|more| - 1];
      RunSplits(p, s, evs, more[..|more| - 1]);
    }
  }

  predicate AnswersHs2(out: Outcome, a: Addr) {
    out.sent.Some? && out.sent.value.dst == a && out.sent.value.dgram.Hs2?
  }

  /** Where a pending entry comes from: it was there, untouched, or this event
      admitted it and announced it in the Hs2 it sent. */
  predicate PendingFrom(s: Server, load: bool, sent: Option<Output>, d: Dgram, a: Addr, e: Pending) {
    if sent.Some? && sent.value.dst == a && sent.value.dgram.Hs2? then
      && sent.value.dgram.msg2 == Msg2(e.responder.initiator, e.responder.id)
      && (if EffectiveLoad(s, load)
          then d.Hs1? && e.proof == d.cookie && e.proof.Some? && CookieVerifies(s.epoch, a, e.proof.value)
          else e.proof.None?)
    else
      a in s.pending && s.pending[a] == e
  }

  lemma RoutePending(p: Policy, s: Server, src: Addr, d: Dgram, load: bool, now: nat)
    ensures
      var out := Route(p, s, src, d, load, now);
      && (forall a | a in out.server.pending :: PendingFrom(s, load, out.sent, d, a, out.server.pending[a]))
      && (out.sent.Some? ==> out.sent.value.dst == src)
      && out.server.epoch == s.epoch
  {
    hide OnHs1;
    match d
    case Hs1Malformed => Hs1Effect(s, src, d, load, now);
    case Hs1(_, _) => Hs1Effect(s, src, d, load, now);
    case _ =>
  }

  lemma StepPending(p: Policy, s: Server, ev: ServerEvent, a: Addr)
    requires a in Step(p, s, ev).server.pending
    ensures
      var out := Step(p, s, ev);
      if ev.Arrive? && Possible(s, ev) then
        PendingFrom(s, ev.load, out.sent, ev.d, a, out.server.pending[a])
      else
        a in s.pending && s.pending[a] == out.server.pending[a]
  {
    hide Route;
    if ev.Arrive? {
      RoutePending(p, s, ev.src, ev.d, ev.load, s.clock + ev.before);
    }
  }
}
