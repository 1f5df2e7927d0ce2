/** Key agreement and no reuse of a key and counter, in every run of the protocol. */
module Agreement {
  import opened Common
  import opened Wire
  import opened DataPlane
  import opened PeerTable
  import opened TableInvariant
  import opened ClientHandshake
  import opened Protocol

  // ---- The invariant ----------------------------------------------------------

  predicate HasSeed(ph: Phase) {
    !ph.Opening? && !ph.Failed?
  }

  /** The only third message a client ever builds from its draw `n`. */
  predicate OwnMsg3(n: nat, key: StaticKey, m: Msg3) {
    m.Msg3? && m.initiator == Honest(n) && m.key == key && m.payload == Some(Honest(n))
  }

  predicate ClientOk(w: World, c: nat)
    requires c < |w.clients|
  {
    var ph, key := w.clients[c].phase, w.clients[c].config.key;
    && (HasSeed(ph) ==> ph.seed < |w.owners| && w.owners[ph.seed] == c)
    && (ph.SendHs3? || ph.AwaitReady? || ph.ResendHs3? ==> OwnMsg3(ph.seed, key, ph.msg3))
    && (ph.AwaitReady? || ph.ResendHs3? || ph.Connected? ==>
          && ph.channel.sealer.key == RecordKey(Honest(ph.seed), C2S)
          && ph.channel.opener.key == RecordKey(Honest(ph.seed), S2C))
  }

  predicate OwnersOk(w: World) {
    && (forall n | 0 <= n < |w.owners| :: w.owners[n] < |w.clients|)
    && (forall c | 0 <= c < |w.clients| :: ClientOk(w, c))
  }

  /** An honest party's third message on the network. */
  predicate HonestHs3(pk: Packet) {
    pk.d.Hs3? && !Forgeable(pk.d)
  }

  /** It is its owner's, from its owner's address, and the phase its owner is in
      agrees: not sent yet, or the one being resent. */
  predicate Hs3Ok(w: World, pk: Packet)
    requires HonestHs3(pk)
  {
    var m := pk.d.msg3;
    && m.initiator.Honest? && m.initiator.id < |w.owners| && w.owners[m.initiator.id] < |w.clients|
    && var cl := w.clients[w.owners[m.initiator.id]];
       && OwnMsg3(m.initiator.id, cl.config.key, m)
       && pk.sender == Some(cl.addr)
       && (HasSeed(cl.phase) && cl.phase.seed == m.initiator.id ==>
             && !cl.phase.SendHs1? && !cl.phase.AwaitMsg2? && !cl.phase.SendHs3?
             && (cl.phase.AwaitReady? || cl.phase.ResendHs3? ==> cl.phase.msg3 == m))
  }

  predicate NetHs3Ok(w: World) {
    && (forall pk | pk in w.net && HonestHs3(pk) :: Hs3Ok(w, pk))
    && (forall pk, pk' | pk in w.net && pk' in w.net && HonestHs3(pk) && HonestHs3(pk') ::
          pk.d.msg3.initiator == pk'.d.msg3.initiator ==> pk.d == pk'.d)
  }

  /** A connection keyed from an honest seed was made from its owner's message. */
  predicate ConnFromHs3(strict: bool, w: World, c: Conn) {
    c.seed.Honest? ==>
      && c.seed.id < |w.owners| && w.owners[c.seed.id] < |w.clients|
      && var cl := w.clients[w.owners[c.seed.id]];
         && Packet(Some(cl.addr), Hs3(Msg3(c.seed, c.responder, c.clientKey, Some(c.seed)))) in w.net
         && (strict ==> c.addr == cl.addr)
  }

  predicate ConnsFromHs3(strict: bool, w: World) {
    forall k | 0 <= k < |w.server.conns| :: ConnFromHs3(strict, w, w.server.conns[k])
  }

  /** The server holds a connection keyed from seed `n`. */
  predicate ServerHas(w: World, n: nat) {
    exists k | 0 <= k < |w.server.conns| :: w.server.conns[k].seed == Honest(n)
  }

  predicate ConnectedOk(w: World) {
    forall c | 0 <= c < |w.clients| && w.clients[c].phase.Connected? :: ServerHas(w, w.clients[c].phase.seed)
  }

  /** A sealed record lies below the counter of the one channel that seals its key. */
  predicate SealedBelow(w: World, r: Record) {
    r.Record? && (r.key.seed.Honest? ==>
      var n := r.key.seed.id;
      match r.key.dir
      case C2S =>
        && n < |w.owners| && w.owners[n] < |w.clients|
        && var ph := w.clients[w.owners[n]].phase;
           ph.Connected? && ph.seed == n && r.counter < ph.channel.sealer.next
      case S2C =>
        exists k | 0 <= k < |w.server.conns| ::
          w.server.conns[k].seed == Honest(n) && r.counter < w.server.conns[k].channel.sealer.next)
  }

  predicate SealedOk(w: World) {
    && (forall i | 0 <= i < |w.sealed| :: SealedBelow(w, w.sealed[i]))
    && (forall pk | pk in w.net && pk.d.Data? && !Forgeable(pk.d) :: pk.d.record in w.sealed)
  }

  predicate NoReuse(sealed: seq<Record>) {
    forall i, j | 0 <= i < j < |sealed| && sealed[i].Record? && sealed[j].Record? && sealed[i].key.seed.Honest? ::
      sealed[i].key != sealed[j].key || sealed[i].counter != sealed[j].counter
  }

  predicate WorldInv(p: Policy, strict: bool, w: World) {
    && TableInv(p, w.server)
    && OwnersOk(w)
    && NetHs3Ok(w)
    && ConnsFromHs3(strict, w)
    && ConnectedOk(w)
    && SealedOk(w)
    && NoReuse(w.sealed)
  }

  /** One seed, one connection: two would come from the same message and so from
      the same responder, which completes once. */
  lemma OneConnPerSeed(p: Policy, strict: bool, w: World, j: nat, k: nat)
    requires TableInv(p, w.server) && NetHs3Ok(w) && ConnsFromHs3(strict, w)
    requires j < |w.server.conns| && k < |w.server.conns|
    requires w.server.conns[j].seed.Honest? && w.server.conns[j].seed == w.server.conns[k].seed
    ensures j == k
  {
    var a, b := w.server.conns[j], w.server.conns[k];
    var owner := w.clients[w.owners[a.seed.id]].addr;
    var pa := Packet(Some(owner), Hs3(Msg3(a.seed, a.responder, a.clientKey, Some(a.seed))));
    var pb := Packet(Some(owner), Hs3(Msg3(b.seed, b.responder, b.clientKey, Some(b.seed))));
    assert ConnFromHs3(strict, w, a) && ConnFromHs3(strict, w, b);
    assert HonestHs3(pa) && HonestHs3(pb) && pa in w.net && pb in w.net;
    assert a.responder == b.responder;
  }

  // ---- Clients ------------------------------------------------------------------

  predicate Early(ph: Phase) {
    ph.SendHs1? || ph.AwaitMsg2? || ph.SendHs3?
  }

  predicate Late(ph: Phase) {
    ph.AwaitReady? || ph.ResendHs3?
  }

  /** How a phase may move on: within its attempt, out of it, or into a new one
      with a draw numbered `drawn` or above. */
  predicate Follows(drawn: nat, ph: Phase, ph': Phase) {
    && (HasSeed(ph') ==> (HasSeed(ph) && ph'.seed == ph.seed) || (ph'.SendHs1? && ph'.seed >= drawn))
    && (Early(ph') && ph'.seed < drawn ==> Early(ph))
    && (Late(ph') ==> (Late(ph) || ph.SendHs3?) && ph'.msg3 == ph.msg3)
    && (ph'.Connected? ==> Late(ph) || ph.Connected?)
    && (ph.Connected? ==> ph'.Connected? && ph.channel.sealer.next <= ph'.channel.sealer.next)
  }

  /** The packet needs no secret, or it is a third message being sent by a
      client that is past that point. */
  predicate SentByClient(w: World, pk: Packet) {
    || Forgeable(pk.d)
    || exists c | 0 <= c < |w.clients| ::
         && Late(w.clients[c].phase)
         && pk == Packet(Some(w.clients[c].addr), Hs3(w.clients[c].phase.msg3))
  }

  /** Clients come and move on, seeds are drawn, a packet may go out; the server
      and the sealed records stay. */
  predicate Evolves(w: World, w': World, pk: Option<Packet>) {
    && w'.server == w.server && w'.sealed == w.sealed
    && w'.net == (if pk.Some? then w.net + {pk.value} else w.net)
    && (pk.Some? ==> SentByClient(w', pk.value))
    && w.owners <= w'.owners
    && |w.clients| <= |w'.clients|
    && (forall c | 0 <= c < |w.clients| ::
          && w'.clients[c].addr == w.clients[c].addr && w'.clients[c].config == w.clients[c].config
          && Follows(|w.owners|, w.clients[c].phase, w'.clients[c].phase)
          && (w'.clients[c].phase.Connected? ==> ServerHas(w, w'.clients[c].phase.seed)))
    && (forall c | |w.clients| <= c < |w'.clients| :: w'.clients[c].phase.Opening?)
    && OwnersOk(w')
  }

  lemma EvolvesKeepsHs3(w: World, w': World, pk: Option<Packet>)
    requires OwnersOk(w) && NetHs3Ok(w) && Evolves(w, w', pk)
    ensures NetHs3Ok(w')
  {
    forall q | q in w.net && HonestHs3(q) ensures Hs3Ok(w', q) {
      assert Hs3Ok(w, q);
    }
    if pk.Some? && HonestHs3(pk.value) {
      var c :| 0 <= c < |w'.clients| && Late(w'.clients[c].phase)
               && pk.value == Packet(Some(w'.clients[c].addr), Hs3(w'.clients[c].phase.msg3));
      assert ClientOk(w', c);
      assert Hs3Ok(w', pk.value);
      forall q | q in w.net && HonestHs3(q) && q.d.msg3.initiator == pk.value.d.msg3.initiator
        ensures q.d == pk.value.d
      {
        assert Hs3Ok(w', q);
      }
    }
  }

  lemma EvolvesKeeps(p: Policy, strict: bool, w: World, w': World, pk: Option<Packet>)
    requires WorldInv(p, strict, w) && Evolves(w, w', pk)
    ensures WorldInv(p, strict, w')
  {
    hide TableInv, NoReuse;
    EvolvesKeepsHs3(w, w', pk);
    assert ConnsFromHs3(strict, w') by {
      forall k | 0 <= k < |w'.server.conns| ensures ConnFromHs3(strict, w', w'.server.conns[k]) {
        assert ConnFromHs3(strict, w, w.server.conns[k]);
      }
    }
    assert ConnectedOk(w') by {
      forall c | 0 <= c < |w'.clients| && w'.clients[c].phase.Connected?
        ensures ServerHas(w', w'.clients[c].phase.seed)
      {
        assert ServerHas(w, w'.clients[c].phase.seed);
      }
    }
    assert SealedOk(w') by {
      forall i | 0 <= i < |w'.sealed| ensures SealedBelow(w', w'.sealed[i]) {
        assert SealedBelow(w, w.sealed[i]);
      }
    }
  }

  /** What the machine does to a client that is in order. */
  lemma ClientStepFollows(c: ClientConfig, ph: Phase, ev: ClientEvent, drawn: nat)
    requires !ph.Connected?
    requires ev.Draw? ==> ev.seed == drawn
    requires HasSeed(ph) ==> ph.seed < drawn
    requires ph.SendHs3? || Late(ph) ==> OwnMsg3(ph.seed, c.key, ph.msg3)
    requires Late(ph) ==> ph.channel.sealer.key == RecordKey(Honest(ph.seed), C2S)
                          && ph.channel.opener.key == RecordKey(Honest(ph.seed), S2C)
    ensures
      var out := ClientStep(c, ph, ev);
      var ph' := out.phase;
      && Follows(drawn, ph, ph')
      && (ph.Opening? && ph'.SendHs1? ==> ph'.seed == drawn)
      && (HasSeed(ph') && ph'.seed >= drawn ==> ph.Opening? && ph'.SendHs1?)
      && (ph'.SendHs3? || Late(ph') ==> OwnMsg3(ph'.seed, c.key, ph'.msg3))
      && (Late(ph') || ph'.Connected? ==> ph'.channel.sealer.key == RecordKey(Honest(ph'.seed), C2S)
                                          && ph'.channel.opener.key == RecordKey(Honest(ph'.seed), S2C))
      && (out.sent.Some? ==> Forgeable(out.sent.value) || (Late(ph') && out.sent.value == Hs3(ph'.msg3)))
      && (ph'.Connected? ==> Late(ph) && ev.Receive? && Opens(ph.channel, ev.d))
  {
  }

  /** A record that opens on the client's channel was sealed, so the server has
      a connection for the seed. */
  lemma OpeningImpliesServer(p: Policy, strict: bool, w: World, sender: Option<Addr>, d: Dgram, n: nat, ch: Channel)
    requires WorldInv(p, strict, w) && Deliverable(w, sender, d)
    requires ch.opener.key == RecordKey(Honest(n), S2C) && Opens(ch, d)
    ensures ServerHas(w, n)
  {
    assert Packet(sender, d) in w.net;
    assert d.record in w.sealed;
    assert SealedBelow(w, d.record);
  }

  lemma MoveClientKeeps(p: Policy, strict: bool, w: World, c: nat, ev: ClientEvent, sender: Option<Addr>)
    requires WorldInv(p, strict, w) && c < |w.clients| && !w.clients[c].phase.Connected?
    requires ev.Draw? ==> ev.seed == |w.owners|
    requires ev.Receive? ==> Deliverable(w, sender, ev.d)
    ensures WorldInv(p, strict, MoveClient(w, c, ev))
  {
    var cl := w.clients[c];
    var w' := MoveClient(w, c, ev);
    var out := ClientStep(cl.config, cl.phase, ev);
    var pk := if out.sent.Some? then Some(Packet(Some(cl.addr), out.sent.value)) else None;
    assert ClientOk(w, c);
    ClientStepFollows(cl.config, cl.phase, ev, |w.owners|);
    if out.phase.Connected? {
      OpeningImpliesServer(p, strict, w, sender, ev.d, cl.phase.seed, cl.phase.channel);
    }
    hide ClientStep;
    assert OwnersOk(w') by {
      forall k | 0 <= k < |w'.clients| ensures ClientOk(w', k) {
        assert ClientOk(w, k);
      }
    }
    assert pk.Some? ==> SentByClient(w', pk.value) by {
      assert w'.clients[c].phase == out.phase && w'.clients[c].addr == cl.addr;
    }
    hide ServerHas;
    assert Evolves(w, w', pk) by {
      forall k | 0 <= k < |w.clients|
        ensures Follows(|w.owners|, w.clients[k].phase, w'.clients[k].phase)
        ensures w'.clients[k].phase.Connected? ==> ServerHas(w, w'.clients[k].phase.seed)
      {
        assert ClientOk(w, k);
      }
    }
    EvolvesKeeps(p, strict, w, w', pk);
  }

  lemma SpawnKeeps(p: Policy, strict: bool, w: World, addr: Addr, config: ClientConfig)
    requires WorldInv(p, strict, w)
    ensures WorldInv(p, strict, w.(clients := w.clients + [Client(addr, config, Opening(0))]))
  {
    var w' := w.(clients := w.clients + [Client(addr, config, Opening(0))]);
    forall k | 0 <= k < |w'.clients| ensures ClientOk(w', k) {
      assert k < |w.clients| ==> ClientOk(w, k);
    }
    EvolvesKeeps(p, strict, w, w', None);
  }

  function SetPhase(w: World, c: nat, ph: Phase): World
    requires c < |w.clients|
  {
    w.(clients := w.clients[c := w.clients[c].(phase := ph)])
  }

  /** A connected client's channel advances. */
  lemma ChannelAdvances(p: Policy, strict: bool, w: World, c: nat, ch: Channel)
    requires WorldInv(p, strict, w) && c < |w.clients| && w.clients[c].phase.Connected?
    requires ch.sealer.key == w.clients[c].phase.channel.sealer.key
    requires ch.opener.key == w.clients[c].phase.channel.opener.key
    requires w.clients[c].phase.channel.sealer.next <= ch.sealer.next
    ensures WorldInv(p, strict, SetPhase(w, c, Connected(w.clients[c].phase.seed, ch)))
  {
    var w' := SetPhase(w, c, Connected(w.clients[c].phase.seed, ch));
    forall k | 0 <= k < |w'.clients| ensures ClientOk(w', k) {
      assert ClientOk(w, k);
    }
    EvolvesKeeps(p, strict, w, w', None);
  }

  // ---- Sealing ------------------------------------------------------------------

  /** A record with a key and counter not used before joins the network and the
      list of sealed records. */
  lemma SealKeeps(p: Policy, strict: bool, w: World, sender: Option<Addr>, r: Record)
    requires WorldInv(p, strict, w) && SealedBelow(w, r)
    requires r.key.seed.Honest? ==>
               forall i | 0 <= i < |w.sealed| :: w.sealed[i].key != r.key || w.sealed[i].counter != r.counter
    ensures WorldInv(p, strict, w.(net := w.net + {Packet(sender, Data(r))}, sealed := w.sealed + [r]))
  {
    hide TableInv;
    var w' := w.(net := w.net + {Packet(sender, Data(r))}, sealed := w.sealed + [r]);
    forall k | 0 <= k < |w'.clients| ensures ClientOk(w', k) {
      assert ClientOk(w, k);
    }
    assert NetHs3Ok(w') by {
      forall q | q in w'.net && HonestHs3(q) ensures q in w.net && Hs3Ok(w', q) {
        assert Hs3Ok(w, q);
      }
    }
    forall k | 0 <= k < |w'.server.conns| ensures ConnFromHs3(strict, w', w'.server.conns[k]) {
      assert ConnFromHs3(strict, w, w.server.conns[k]);
    }
    forall c | 0 <= c < |w'.clients| && w'.clients[c].phase.Connected? ensures ServerHas(w', w'.clients[c].phase.seed) {
      assert ServerHas(w, w.clients[c].phase.seed);
    }
    forall i | 0 <= i < |w'.sealed| ensures SealedBelow(w', w'.sealed[i]) {
      assert SealedBelow(w, if i < |w.sealed| then w.sealed[i] else r);
    }
    forall q | q in w'.net && q.d.Data? && !Forgeable(q.d) ensures q.d.record in w'.sealed {
      if q in w.net {
        assert q.d.record in w.sealed;
      } else {
        assert w'.sealed[|w.sealed|] == r;
      }
    }
  }

  lemma ClientSendKeeps(p: Policy, strict: bool, w: World, c: nat, env: Envelope)
    requires WorldInv(p, strict, w) && c < |w.clients| && w.clients[c].phase.Connected?
    ensures WorldInv(p, strict, ClientSend(w, c, env))
  {
    var ph := w.clients[c].phase;
    var r := Sealed(ph.channel, env);
    assert ClientOk(w, c);
    forall i | 0 <= i < |w.sealed| ensures w.sealed[i].key != r.key || w.sealed[i].counter != r.counter {
      assert SealedBelow(w, w.sealed[i]);
    }
    ChannelAdvances(p, strict, w, c, AfterSeal(ph.channel));
    var w' := SetPhase(w, c, Connected(ph.seed, AfterSeal(ph.channel)));
    assert SealedBelow(w', r);
    SealKeeps(p, strict, w', Some(w.clients[c].addr), r);
  }

  // ---- The server -----------------------------------------------------------------

  /** Counters of existing connections never go back, and a record that leaves
      the server takes the next counter of a connection of its own. */
  predicate ServerSeals(s: Server, s': Server, sent: Option<Output>) {
    && |s.conns| <= |s'.conns|
    && (forall k | 0 <= k < |s.conns| :: s.conns[k].channel.sealer.next <= s'.conns[k].channel.sealer.next)
    && (sent.Some? && !sent.value.dgram.Data? ==> Forgeable(sent.value.dgram))
    && (sent.Some? && sent.value.dgram.Data? ==>
          exists k | 0 <= k < |s'.conns| :: SealsFor(s, s', sent.value.dgram.record, k))
  }

  predicate SealsFor(s: Server, s': Server, r: Record, k: nat)
    requires k < |s'.conns|
  {
    && r.Record? && r.key == s'.conns[k].channel.sealer.key && r.counter < s'.conns[k].channel.sealer.next
    && (k < |s.conns| ==> r.counter == s.conns[k].channel.sealer.next)
  }

  lemma OnDataSeals(p: Policy, s: Server, src: Addr, d: Dgram, now: nat)
    ensures var out := OnData(p, s, src, d, now); ServerSeals(s, out.server, out.sent)
  {
    if src in s.peers && s.peers[src].conn < |s.conns| {
      var k := s.peers[src].conn;
      var out := OnData(p, s, src, d, now);
      if out.sent.Some? {
        assert SealsFor(s, out.server, out.sent.value.dgram.record, k);
      }
    }
  }

  lemma OnHs3Seals(p: Policy, s: Server, src: Addr, m: Msg3, now: nat)
    ensures var out := OnHs3(p, s, src, m, now); ServerSeals(s, out.server, out.sent)
  {
    var out := OnHs3(p, s, src, m, now);
    if out.sent.Some? {
      assert SealsFor(s, out.server, out.sent.value.dgram.record, |s.conns|);
    }
  }

  lemma RouteSeals(p: Policy, s: Server, src: Addr, d: Dgram, load: bool, now: nat)
    ensures var out := Route(p, s, src, d, load, now); ServerSeals(s, out.server, out.sent)
  {
    hide OnHs1, OnHs3, OnData;
    match d
    case Hs1Malformed => Hs1Effect(s, src, d, load, now);
    case Hs1(_, _) => Hs1Effect(s, src, d, load, now);
    case Hs3(m) => OnHs3Seals(p, s, src, m, now);
    case Data(_) => OnDataSeals(p, s, src, d, now);
    case _ =>
  }

  /** `ServerSeals` looks at the connections only. */
  lemma SameConnsSeal(s: Server, s': Server, s'': Server, sent: Option<Output>)
    requires ServerSeals(s, s', sent) && s''.conns == s'.conns
    ensures ServerSeals(s, s'', sent)
  {
    if sent.Some? && sent.value.dgram.Data? {
      var k :| 0 <= k < |s'.conns| && SealsFor(s, s', sent.value.dgram.record, k);
      assert SealsFor(s, s'', sent.value.dgram.record, k);
    }
  }

  lemma HandleSeals(p: Policy, s: Server, src: Addr, d: Dgram, load: bool, before: nat, after: nat)
    ensures var out := HandleDgram(p, s, src, d, load, before, after); ServerSeals(s, out.server, out.sent)
  {
    hide Route, Finish, ServerSeals;
    var now := s.clock + before;
    RouteSeals(p, s, src, d, load, now);
    var routed := Route(p, s, src, d, load, now);
    FinishEffect(routed, now + after);
    SameConnsSeal(s, routed.server, Finish(routed, now + after).server, routed.sent);
  }

  lemma SealerTurnSeals(s: Server, k: nat)
    requires k < |s.conns|
    ensures var out := SealerTurn(s, k); ServerSeals(s, out.server, out.sent)
  {
    var out := SealerTurn(s, k);
    if out.sent.Some? {
      assert SealsFor(s, out.server, out.sent.value.dgram.record, k);
    }
  }

  lemma StepSeals(p: Policy, s: Server, ev: ServerEvent)
    ensures var out := Step(p, s, ev); ServerSeals(s, out.server, out.sent)
  {
    hide HandleDgram, SealerTurn;
    if ev.Arrive? {
      HandleSeals(p, s, ev.src, ev.d, ev.load, ev.before, ev.after);
    } else if ev.SealerRuns? && Possible(s, ev) {
      SealerTurnSeals(s, ev.conn);
    }
  }

  /** A connection that was not there before was made from the arriving message. */
  lemma StepInstalls(p: Policy, s: Server, ev: ServerEvent, k: nat)
    requires |s.conns| <= k < |Step(p, s, ev).server.conns|
    ensures ev.Arrive? && ev.d.Hs3? && ev.d.msg3.Msg3? && Completes(p, s, ev.src, ev.d.msg3)
    ensures Step(p, s, ev).server.conns[k] == NewConn(p, ev.src, ev.d.msg3)
  {
    hide OnHs1, OnData, Finish;
    if ev.Arrive? && Possible(s, ev) {
      var now := s.clock + ev.before;
      FinishEffect(Route(p, s, ev.src, ev.d, ev.load, now), now + ev.after);
      if ev.d.Hs1? || ev.d.Hs1Malformed? {
        Hs1Effect(s, ev.src, ev.d, ev.load, now);
      } else if ev.d.Data? {
        OnDataSeals(p, s, ev.src, ev.d, now);
        OnDataCount(p, s, ev.src, ev.d, now);
      }
    }
  }

  lemma OnDataCount(p: Policy, s: Server, src: Addr, d: Dgram, now: nat)
    ensures |OnData(p, s, src, d, now).server.conns| == |s.conns|
  {
  }

  lemma ServerChangeKeeps(p: Policy, strict: bool, w: World, s: Server)
    requires WorldInv(p, strict, w) && TableInv(p, s)
    requires Grows(w.server.conns, s.conns)
    requires forall k | 0 <= k < |w.server.conns| ::
               w.server.conns[k].channel.sealer.next <= s.conns[k].channel.sealer.next
    requires forall k | |w.server.conns| <= k < |s.conns| :: ConnFromHs3(strict, w, s.conns[k])
    ensures WorldInv(p, strict, w.(server := s))
  {
    hide TableInv, NoReuse, Forgeable;
    var w' := w.(server := s);
    assert OwnersOk(w') by {
      forall k | 0 <= k < |w'.clients| ensures ClientOk(w', k) {
        assert ClientOk(w, k);
      }
    }
    assert NetHs3Ok(w') by {
      forall q | q in w'.net && HonestHs3(q) ensures Hs3Ok(w', q) {
        assert Hs3Ok(w, q);
      }
    }
    assert ConnsFromHs3(strict, w') by {
      forall k | 0 <= k < |s.conns| ensures ConnFromHs3(strict, w', s.conns[k]) {
        if k < |w.server.conns| {
          assert ConnFromHs3(strict, w, w.server.conns[k]) && SameIdentity(w.server.conns[k], s.conns[k]);
        } else {
          assert ConnFromHs3(strict, w, s.conns[k]);
        }
      }
    }
    assert ConnectedOk(w') by {
      forall c | 0 <= c < |w'.clients| && w'.clients[c].phase.Connected?
        ensures ServerHas(w', w'.clients[c].phase.seed)
      {
        var n := w.clients[c].phase.seed;
        assert ServerHas(w, n);
        var k :| 0 <= k < |w.server.conns| && w.server.conns[k].seed == Honest(n);
        assert SameIdentity(w.server.conns[k], s.conns[k]);
      }
    }
    assert SealedOk(w') by {
      forall i | 0 <= i < |w'.sealed| ensures SealedBelow(w', w'.sealed[i]) {
        var r := w.sealed[i];
        assert SealedBelow(w, r);
        if r.key.seed.Honest? && r.key.dir == S2C {
          var k :| 0 <= k < |w.server.conns| && w.server.conns[k].seed == r.key.seed
                   && r.counter < w.server.conns[k].channel.sealer.next;
          assert SameIdentity(w.server.conns[k], s.conns[k]);
        }
      }
    }
  }

  /** The record a connection seals next carries a pair never used before. */
  lemma FreshPair(p: Policy, strict: bool, w: World, s: Server, r: Record, k: nat, i: nat)
    requires WorldInv(p, strict, w) && WorldInv(p, strict, w.(server := s))
    requires Grows(w.server.conns, s.conns)
    requires k < |s.conns| && SealsFor(w.server, s, r, k) && i < |w.sealed|
    requires r.key.seed.Honest?
    ensures w.sealed[i].key != r.key || w.sealed[i].counter != r.counter
  {
    var w' := w.(server := s);
    assert ConnOk(p, s.conns[k]);
    if w.sealed[i].key == r.key {
      assert SealedBelow(w, w.sealed[i]);
      var j :| 0 <= j < |w.server.conns| && w.server.conns[j].seed == r.key.seed
               && w.sealed[i].counter < w.server.conns[j].channel.sealer.next;
      assert SameIdentity(w.server.conns[j], s.conns[j]);
      OneConnPerSeed(p, strict, w', j, k);
    }
  }

  lemma SealByServer(p: Policy, strict: bool, w: World, s: Server, r: Record, k: nat)
    requires WorldInv(p, strict, w) && WorldInv(p, strict, w.(server := s))
    requires Grows(w.server.conns, s.conns)
    requires k < |s.conns| && SealsFor(w.server, s, r, k)
    ensures WorldInv(p, strict, w.(server := s, net := w.net + {Packet(None, Data(r))}, sealed := w.sealed + [r]))
  {
    var w' := w.(server := s);
    assert ConnOk(p, s.conns[k]);
    assert SealedBelow(w', r);
    hide WorldInv, SealedBelow, TableInv, ConnOk, Grows;
    if r.key.seed.Honest? {
      forall i | 0 <= i < |w.sealed| ensures w.sealed[i].key != r.key || w.sealed[i].counter != r.counter {
        FreshPair(p, strict, w, s, r, k, i);
      }
    }
    SealKeeps(p, strict, w', None, r);
  }

  /** The message a new connection comes from is its owner's, if its seed is honest. */
  lemma InstalledFromHs3(p: Policy, strict: bool, w: World, src: Addr, m: Msg3, sender: Option<Addr>)
    requires OwnersOk(w) && NetHs3Ok(w)
    requires m.Msg3? && m.payload.Some?
    requires Deliverable(w, sender, Hs3(m)) && (strict ==> Forgeable(Hs3(m)) || sender == Some(src))
    ensures ConnFromHs3(strict, w, NewConn(p, src, m))
  {
    if m.payload.value.Honest? {
      var pk := Packet(sender, Hs3(m));
      assert pk in w.net && HonestHs3(pk);
      assert Hs3Ok(w, pk);
    }
  }

  lemma SameClients(w: World, w': World)
    requires OwnersOk(w) && ConnectedOk(w)
    requires w'.clients == w.clients && w'.owners == w.owners && w'.server == w.server
    ensures OwnersOk(w')
    ensures forall c | 0 <= c < |w.clients| :: Follows(|w.owners|, w.clients[c].phase, w'.clients[c].phase)
  {
    forall c | 0 <= c < |w.clients| ensures ClientOk(w', c) && Follows(|w.owners|, w.clients[c].phase, w'.clients[c].phase) {
      assert ClientOk(w, c);
    }
  }

  lemma ServerMovesKeeps(p: Policy, strict: bool, w: World, ev: ServerEvent, sender: Option<Addr>)
    requires WorldInv(p, strict, w)
    requires ev.Arrive? ==> Deliverable(w, sender, ev.d) && (strict ==> Forgeable(ev.d) || sender == Some(ev.src))
    ensures WorldInv(p, strict, ServerMoves(p, w, ev))
  {
    hide Step;
    var out := Step(p, w.server, ev);
    var s := out.server;
    StepKeeps(p, w.server, ev);
    StepGrows(p, w.server, ev);
    StepSeals(p, w.server, ev);
    forall k | |w.server.conns| <= k < |s.conns| ensures ConnFromHs3(strict, w, s.conns[k]) {
      StepInstalls(p, w.server, ev, k);
      InstalledFromHs3(p, strict, w, ev.src, ev.d.msg3, sender);
    }
    ServerChangeKeeps(p, strict, w, s);
    var w1 := w.(server := s);
    if out.sent.Some? {
      var d := out.sent.value.dgram;
      if d.Data? {
        var k :| 0 <= k < |s.conns| && SealsFor(w.server, s, d.record, k);
        SealByServer(p, strict, w, s, d.record, k);
      } else {
        var w2 := ServerMoves(p, w, ev);
        assert Evolves(w1, w2, Some(Packet(None, d))) by {
          SameClients(w1, w2);
        }
        EvolvesKeeps(p, strict, w1, w2, Some(Packet(None, d)));
      }
    }
  }

  // ---- Every run --------------------------------------------------------------------

  lemma ActKeeps(p: Policy, strict: bool, w: World, step: WorldStep)
    requires WorldInv(p, strict, w)
    ensures WorldInv(p, strict, Act(p, strict, w, step))
  {
    hide WorldInv, MoveClient, ServerMoves, ClientSend;
    if Allowed(strict, w, step) {
      match step
      case Spawn(addr, config) => SpawnKeeps(p, strict, w, addr, config);
      case ClientGoes(c, ok) => QuietOrMoved(p, strict, w, c, GoesOn(w, c, ok), None);
      case ClientHears(c, sender, d, after) =>
        if w.clients[c].phase.Connected? {
          ChannelAdvances(p, strict, w, c, AfterOpen(w.clients[c].phase.channel, d));
        } else {
          MoveClientKeeps(p, strict, w, c, Receive(d, after), sender);
        }
      case ClientWaitsOut(c) => QuietOrMoved(p, strict, w, c, Expire, None);
      case ClientSocketFails(c, after) => QuietOrMoved(p, strict, w, c, RecvError(after), None);
      case ClientSeals(c, env) => ClientSendKeeps(p, strict, w, c, env);
      case ServerHears(sender, src, d, load, before, after) =>
        ServerMovesKeeps(p, strict, w, Arrive(src, d, load, before, after), sender);
      case ServerWorks(ev) => ServerMovesKeeps(p, strict, w, ev, None);
    }
  }

  /** A client that is done does not move on its own. */
  lemma QuietOrMoved(p: Policy, strict: bool, w: World, c: nat, ev: ClientEvent, sender: Option<Addr>)
    requires WorldInv(p, strict, w) && c < |w.clients| && !ev.Receive?
    requires ev.Draw? ==> ev.seed == |w.owners|
    ensures WorldInv(p, strict, MoveClient(w, c, ev))
  {
    if w.clients[c].phase.Connected? {
      assert MoveClient(w, c, ev) == w;
    } else {
      hide WorldInv, MoveClient;
      MoveClientKeeps(p, strict, w, c, ev, sender);
    }
  }

  lemma {:induction false} InvHolds(p: Policy, strict: bool, steps: seq<WorldStep>)
    ensures WorldInv(p, strict, RunWorld(p, strict, steps))
  {
    hide WorldInv, Act;
    if steps != [] {
      InvHolds(p, strict, steps[..|steps| - 1]);
      ActKeeps(p, strict, RunWorld(p, strict, steps[..|steps| - 1]), steps[|steps| - 1]);
    } else {
      GenesisOk(p, strict);
    }
  }

  lemma GenesisOk(p: Policy, strict: bool)
    ensures WorldInv(p, strict, GENESIS)
  {
  }

  // ---- Results -------------------------------------------------------------------------

  /** In every run no key and counter, of an honest seed, is sealed twice by anyone. */
  lemma NoCounterReuse(p: Policy, strict: bool, steps: seq<WorldStep>, i: nat, j: nat)
    requires i < j < |RunWorld(p, strict, steps).sealed|
    requires RunWorld(p, strict, steps).sealed[i].Record? && RunWorld(p, strict, steps).sealed[j].Record?
    requires RunWorld(p, strict, steps).sealed[i].key.seed.Honest?
    ensures
      var sealed := RunWorld(p, strict, steps).sealed;
      sealed[i].key != sealed[j].key || sealed[i].counter != sealed[j].counter
  {
    InvHolds(p, strict, steps);
  }

  /** An honest seed yields at most one channel at the server... */
  lemma OneServerChannelPerSeed(p: Policy, strict: bool, steps: seq<WorldStep>, j: nat, k: nat)
    requires j < |RunWorld(p, strict, steps).server.conns| && k < |RunWorld(p, strict, steps).server.conns|
    requires RunWorld(p, strict, steps).server.conns[j].seed.Honest?
    requires RunWorld(p, strict, steps).server.conns[j].seed == RunWorld(p, strict, steps).server.conns[k].seed
    ensures j == k
  {
    InvHolds(p, strict, steps);
    OneConnPerSeed(p, strict, RunWorld(p, strict, steps), j, k);
  }

  /** ... belongs to one client ... */
  lemma OneClientPerSeed(p: Policy, strict: bool, steps: seq<WorldStep>, j: nat, k: nat)
    requires j < |RunWorld(p, strict, steps).clients| && k < |RunWorld(p, strict, steps).clients|
    requires HasSeed(RunWorld(p, strict, steps).clients[j].phase) && HasSeed(RunWorld(p, strict, steps).clients[k].phase)
    requires RunWorld(p, strict, steps).clients[j].phase.seed == RunWorld(p, strict, steps).clients[k].phase.seed
    ensures j == k
  {
    InvHolds(p, strict, steps);
    var w := RunWorld(p, strict, steps);
    assert ClientOk(w, j) && ClientOk(w, k);
  }

  // ---- One client's view of a run --------------------------------------------------------

  /** What a step means to client `c` of the world it is taken in. */
  function EventFor(strict: bool, w: World, step: WorldStep, c: nat): Option<ClientEvent> {
    if !Allowed(strict, w, step) || c >= |w.clients| then None
    else
      match step
      case ClientGoes(k, ok) => if k == c then Some(GoesOn(w, c, ok)) else None
      case ClientHears(k, _, d, after) => if k == c then Some(Receive(d, after)) else None
      case ClientWaitsOut(k) => if k == c then Some(Expire) else None
      case ClientSocketFails(k, after) => if k == c then Some(RecvError(after)) else None
      case _ => None
  }

  /** A connected client stays on its seed and its keys. */
  predicate StaysConnected(ph: Phase, ph': Phase) {
    && ph.Connected? && ph'.Connected? && ph.seed == ph'.seed
    && ph.channel.sealer.key == ph'.channel.sealer.key && ph.channel.opener.key == ph'.channel.opener.key
  }

  lemma ActOnClient(p: Policy, strict: bool, w: World, step: WorldStep, c: nat)
    requires c < |w.clients|
    ensures
      var w' := Act(p, strict, w, step);
      && c < |w'.clients|
      && var cl, cl', ev := w.clients[c], w'.clients[c], EventFor(strict, w, step, c);
         && cl'.addr == cl.addr && cl'.config == cl.config
         && if cl.phase.Connected? then StaysConnected(cl.phase, cl'.phase)
            else if ev.Some? then cl'.phase == ClientStep(cl.config, cl.phase, ev.value).phase
            else cl'.phase == cl.phase
  {
    hide Step;
    if w.clients[c].phase.Connected? {
      ConnectedIsFinal(w.clients[c].config, w.clients[c].phase);
    }
    hide ClientStep;
  }

  lemma ConnectedIsFinal(c: ClientConfig, ph: Phase)
    requires ph.Connected?
    ensures forall ev :: ClientStep(c, ph, ev) == Quiet(ph, 0)
  {
  }

  lemma ActOnOthers(p: Policy, strict: bool, w: World, step: WorldStep)
    ensures
      var w' := Act(p, strict, w, step);
      && w.owners <= w'.owners && |w.clients| <= |w'.clients|
      && forall c | |w.clients| <= c < |w'.clients| :: w'.clients[c].phase == Opening(0)
  {
    hide Step, ClientStep;
  }

  /** The events of client `c` in a run. */
  function Projection(p: Policy, strict: bool, steps: seq<WorldStep>, c: nat): seq<ClientEvent> {
    if steps == [] then []
    else
      var n := |steps| - 1;
      var ev := EventFor(strict, RunWorld(p, strict, steps[..n]), steps[n], c);
      Projection(p, strict, steps[..n], c) + if ev.Some? then [ev.value] else []
  }

  lemma {:induction false} NoEventsYet(p: Policy, strict: bool, steps: seq<WorldStep>, c: nat)
    requires c >= |RunWorld(p, strict, steps).clients|
    ensures Projection(p, strict, steps, c) == []
  {
    if steps != [] {
      hide Act;
      var n := |steps| - 1;
      ActOnOthers(p, strict, RunWorld(p, strict, steps[..n]), steps[n]);
      NoEventsYet(p, strict, steps[..n], c);
    }
  }

  predicate SameOutcome(ph: Phase, ph': Phase) {
    ph == ph' || StaysConnected(ph, ph')
  }

  /** Every client of every run is a run of the client's machine on its own events;
      once connected, it stays on the seed and the keys it connected with. */
  lemma {:induction false} ClientRunsMachine(p: Policy, strict: bool, steps: seq<WorldStep>, c: nat)
    requires c < |RunWorld(p, strict, steps).clients|
    ensures
      var cl := RunWorld(p, strict, steps).clients[c];
      SameOutcome(RunClient(cl.config, Projection(p, strict, steps, c)).phase, cl.phase)
  {
    var n := |steps| - 1;
    var w := RunWorld(p, strict, steps[..n]);
    var evs := Projection(p, strict, steps[..n], c);
    var ev := EventFor(strict, w, steps[n], c);
    hide Act, ClientStep;
    if c < |w.clients| {
      ClientRunsMachine(p, strict, steps[..n], c);
      ActOnClient(p, strict, w, steps[n], c);
      if ev.Some? {
        RunExtends(w.clients[c].config, evs, ev.value);
        var ph := RunClient(w.clients[c].config, evs).phase;
        if ph.Connected? {
          ConnectedIsFinal(w.clients[c].config, ph);
        }
      } else {
        assert evs + [] == evs;
      }
    } else {
      ActOnOthers(p, strict, w, steps[n]);
      NoEventsYet(p, strict, steps[..n], c);
    }
  }

  /** Seed `n` was drawn, and nobody will build a channel from it any more. */
  predicate Spent(w: World, n: nat) {
    && n < |w.owners|
    && forall c | 0 <= c < |w.clients| && Early(w.clients[c].phase) :: w.clients[c].phase.seed != n
  }

  lemma ActKeepsSpent(p: Policy, strict: bool, w: World, step: WorldStep, n: nat)
    requires WorldInv(p, strict, w) && Spent(w, n)
    ensures Spent(Act(p, strict, w, step), n)
  {
    hide Act, ClientStep;
    var w' := Act(p, strict, w, step);
    ActOnOthers(p, strict, w, step);
    forall c | 0 <= c < |w'.clients| && Early(w'.clients[c].phase) ensures w'.clients[c].phase.seed != n {
      if c < |w.clients| {
        ActOnClient(p, strict, w, step, c);
        assert ClientOk(w, c);
        var cl, ev := w.clients[c], EventFor(strict, w, step, c);
        if !cl.phase.Connected? && ev.Some? {
          ClientStepFollows(cl.config, cl.phase, ev.value, |w.owners|);
        }
      }
    }
  }

  lemma {:induction false} SpentStays(p: Policy, strict: bool, steps: seq<WorldStep>, i: nat, j: nat, n: nat)
    requires i <= j <= |steps| && Spent(RunWorld(p, strict, steps[..i]), n)
    ensures Spent(RunWorld(p, strict, steps[..j]), n)
  {
    hide Act, Spent, WorldInv;
    if i < j {
      SpentStays(p, strict, steps, i, j - 1, n);
      InvHolds(p, strict, steps[..j - 1]);
      assert steps[..j][..j - 1] == steps[..j - 1];
      ActKeepsSpent(p, strict, RunWorld(p, strict, steps[..j - 1]), steps[j - 1], n);
    }
  }

  /** At this step client `c` sends its third message and builds its channel. */
  predicate BuildsChannel(w: World, step: WorldStep, c: nat) {
    step == ClientGoes(c, true) && c < |w.clients| && w.clients[c].phase.SendHs3?
  }

  lemma BuildingSpends(p: Policy, strict: bool, w: World, c: nat)
    requires WorldInv(p, strict, w) && BuildsChannel(w, ClientGoes(c, true), c)
    ensures Spent(Act(p, strict, w, ClientGoes(c, true)), w.clients[c].phase.seed)
  {
    var w' := Act(p, strict, w, ClientGoes(c, true));
    forall k | 0 <= k < |w'.clients| && Early(w'.clients[k].phase) ensures w'.clients[k].phase.seed != w.clients[c].phase.seed {
      assert ClientOk(w, k) && ClientOk(w, c);
    }
  }

  /** ... and over a whole run makes at most one channel there: two steps that build
      a client's channel, of one client or of two, never use the same seed. */
  lemma OneClientChannelPerSeed(p: Policy, strict: bool, steps: seq<WorldStep>, i: nat, j: nat, c: nat, d: nat)
    requires i < j < |steps|
    requires BuildsChannel(RunWorld(p, strict, steps[..i]), steps[i], c)
    requires BuildsChannel(RunWorld(p, strict, steps[..j]), steps[j], d)
    ensures RunWorld(p, strict, steps[..i]).clients[c].phase.seed != RunWorld(p, strict, steps[..j]).clients[d].phase.seed
  {
    var w := RunWorld(p, strict, steps[..i]);
    var n := w.clients[c].phase.seed;
    InvHolds(p, strict, steps[..i]);
    hide WorldInv, Act;
    BuildingSpends(p, strict, w, c);
    assert steps[..i + 1][..i] == steps[..i];
    assert RunWorld(p, strict, steps[..i + 1]) == Act(p, strict, w, steps[i]);
    SpentStays(p, strict, steps, i + 1, j, n);
  }

  /** Step `i` of the run delivers the third message that makes connection `k`. */
  predicate InstalledAt(p: Policy, strict: bool, steps: seq<WorldStep>, i: nat, k: nat, m: Msg3, addr: Addr)
    requires i < |steps|
  {
    var w := RunWorld(p, strict, steps[..i]);
    && Allowed(strict, w, steps[i])
    && steps[i].ServerHears? && steps[i].src == addr && steps[i].d == Hs3(m)
    && |w.server.conns| == k && Completes(p, w.server, addr, m)
  }

  lemma {:induction false} InstallOrigin(p: Policy, strict: bool, steps: seq<WorldStep>, k: nat)
    returns (i: nat, m: Msg3)
    requires k < |RunWorld(p, strict, steps).server.conns|
    ensures i < |steps| && m.Msg3? && m.payload.Some?
    ensures InstalledAt(p, strict, steps, i, k, m, RunWorld(p, strict, steps).server.conns[k].addr)
    ensures SameIdentity(RunWorld(p, strict, steps).server.conns[k],
                         NewConn(p, RunWorld(p, strict, steps).server.conns[k].addr, m))
  {
    hide Step, Completes;
    assert steps != [];
    var n := |steps| - 1;
    var w, w' := RunWorld(p, strict, steps[..n]), RunWorld(p, strict, steps);
    var ev := if steps[n].ServerWorks? then steps[n].ev
              else if steps[n].ServerHears? then
                Arrive(steps[n].src, steps[n].d, steps[n].load, steps[n].before, steps[n].after)
              else Rotate;
    StepGrows(p, w.server, ev);
    if k < |w.server.conns| {
      assert SameIdentity(w.server.conns[k], w'.server.conns[k]);
      i, m := InstallOrigin(p, strict, steps[..n], k);
      assert steps[..n][..i] == steps[..i];
    } else {
      StepInstalls(p, w.server, ev, k);
      i, m := n, ev.d.msg3;
      OneAtATime(p, w.server, ev);
    }
  }

  lemma OneAtATime(p: Policy, s: Server, ev: ServerEvent)
    requires ev.Arrive? && ev.d.Hs3?
    ensures |Step(p, s, ev).server.conns| <= |s.conns| + 1
    ensures Completes(p, s, ev.src, ev.d.msg3) ==> ev.d.msg3.Msg3? && ev.d.msg3.payload.Some?
  {
  }

  /** Agreement: once a client is connected, an earlier step of the server took
      that client's third message, found its static key admitted by the gate and
      made the one connection that holds the client's seed; if no honest
      datagram was relabelled, for that client's address. The two ends seal
      with each other's opening key. */
  lemma Agree(p: Policy, strict: bool, steps: seq<WorldStep>, c: nat) returns (k: nat, i: nat, m: Msg3)
    requires c < |RunWorld(p, strict, steps).clients|
    requires RunWorld(p, strict, steps).clients[c].phase.Connected?
    ensures
      var w := RunWorld(p, strict, steps);
      && k < |w.server.conns|
      && var conn, cl := w.server.conns[k], w.clients[c];
         && conn.seed == Honest(cl.phase.seed)
         && conn.clientKey == cl.config.key && p.gate(cl.config.key)
         && (strict ==> conn.addr == cl.addr)
         && conn.channel.sealer.key == cl.phase.channel.opener.key
         && conn.channel.opener.key == cl.phase.channel.sealer.key
         && (forall j | 0 <= j < |w.server.conns| :: w.server.conns[j].seed == conn.seed ==> j == k)
         && i < |steps| && InstalledAt(p, strict, steps, i, k, m, conn.addr)
         && OwnMsg3(cl.phase.seed, cl.config.key, m)
  {
    InvHolds(p, strict, steps);
    var w := RunWorld(p, strict, steps);
    k := AgreeNow(p, strict, w, c);
    hide RunWorld, WorldInv, InstalledAt;
    i, m := InstallOrigin(p, strict, steps, k);
    assert m.initiator == Honest(w.clients[c].phase.seed) by {
      ReadBySeed(p, strict, steps, i, k, m, w.server.conns[k].addr, w.clients[c].phase.seed);
    }
  }

  /** The same, from the client's call: if the events it saw are those of client `c`
      in a run, and it returns with a channel, then the server holds the one
      connection at the other end of that very channel. */
  lemma HandshakeAgrees(p: Policy, strict: bool, steps: seq<WorldStep>, c: nat, evs: seq<ClientEvent>)
    returns (k: nat, i: nat, m: Msg3)
    requires c < |RunWorld(p, strict, steps).clients| && evs == Projection(p, strict, steps, c)
    requires RunClient(RunWorld(p, strict, steps).clients[c].config, evs).phase.Connected?
    ensures
      var w := RunWorld(p, strict, steps);
      var cl, outcome := w.clients[c], RunClient(w.clients[c].config, evs).phase;
      && k < |w.server.conns|
      && var conn := w.server.conns[k];
         && conn.seed == Honest(outcome.seed)
         && conn.clientKey == cl.config.key && p.gate(cl.config.key)
         && (strict ==> conn.addr == cl.addr)
         && conn.channel.sealer.key == outcome.channel.opener.key
         && conn.channel.opener.key == outcome.channel.sealer.key
         && (forall j | 0 <= j < |w.server.conns| :: w.server.conns[j].seed == conn.seed ==> j == k)
         && i < |steps| && InstalledAt(p, strict, steps, i, k, m, conn.addr)
         && OwnMsg3(outcome.seed, cl.config.key, m)
  {
    hide RunWorld, RunClient, Projection, InstalledAt;
    ClientRunsMachine(p, strict, steps, c);
    k, i, m := Agree(p, strict, steps, c);
  }

  /** The server's side of agreement: a connection under an honest client's static
      key was installed by the third message of an honest client with that key, and
      is keyed from that client's seed. */
  lemma ServerAgrees(p: Policy, strict: bool, steps: seq<WorldStep>, k: nat) returns (n: nat, i: nat, m: Msg3)
    requires k < |RunWorld(p, strict, steps).server.conns|
    requires RunWorld(p, strict, steps).server.conns[k].clientKey.HonestKey?
    ensures
      var w := RunWorld(p, strict, steps);
      && n < |w.owners| && w.owners[n] < |w.clients|
      && var conn, cl := w.server.conns[k], w.clients[w.owners[n]];
         && conn.seed == Honest(n) && conn.clientKey == cl.config.key && p.gate(cl.config.key)
         && (strict ==> conn.addr == cl.addr)
         && i < |steps| && InstalledAt(p, strict, steps, i, k, m, conn.addr)
         && OwnMsg3(n, cl.config.key, m)
  {
    var w := RunWorld(p, strict, steps);
    var conn := w.server.conns[k];
    i, m := InstallOrigin(p, strict, steps, k);
    n := OwnerOf(p, strict, steps, i, k, m, conn.addr);
    InvHolds(p, strict, steps);
    hide RunWorld, InstalledAt;
    assert ConnOk(p, conn) && ConnFromHs3(strict, w, conn);
    var pk := Packet(Some(w.clients[w.owners[n]].addr), Hs3(Msg3(conn.seed, conn.responder, conn.clientKey, Some(conn.seed))));
    assert HonestHs3(pk) && pk in w.net && Hs3Ok(w, pk);
  }

  /** A third message that needs an honest secret was built from a draw of its owner. */
  lemma OwnerOf(p: Policy, strict: bool, steps: seq<WorldStep>, i: nat, k: nat, m: Msg3, addr: Addr) returns (n: nat)
    requires i < |steps| && InstalledAt(p, strict, steps, i, k, m, addr)
    requires m.Msg3? && m.payload.Some? && m.key.HonestKey?
    ensures OwnMsg3(n, m.key, m)
  {
    InvHolds(p, strict, steps[..i]);
    var w := RunWorld(p, strict, steps[..i]);
    var pk := Packet(steps[i].sender, Hs3(m));
    assert pk in w.net && HonestHs3(pk);
    assert Hs3Ok(w, pk);
    n := m.initiator.id;
  }

  /** A third message that carries an honest seed was built by that seed's owner. */
  lemma ReadBySeed(p: Policy, strict: bool, steps: seq<WorldStep>, i: nat, k: nat, m: Msg3, addr: Addr, n: nat)
    requires i < |steps| && InstalledAt(p, strict, steps, i, k, m, addr)
    requires m.Msg3? && m.payload == Some(Honest(n))
    ensures m.initiator == Honest(n)
  {
    InvHolds(p, strict, steps[..i]);
    var w := RunWorld(p, strict, steps[..i]);
    var pk := Packet(steps[i].sender, Hs3(m));
    assert pk in w.net && HonestHs3(pk);
    assert Hs3Ok(w, pk);
  }

  lemma AgreeNow(p: Policy, strict: bool, w: World, c: nat) returns (k: nat)
    requires WorldInv(p, strict, w) && c < |w.clients| && w.clients[c].phase.Connected?
    ensures
      && k < |w.server.conns|
      && var conn, cl := w.server.conns[k], w.clients[c];
         && conn.seed == Honest(cl.phase.seed)
         && conn.clientKey == cl.config.key && p.gate(cl.config.key)
         && (strict ==> conn.addr == cl.addr)
         && conn.channel.sealer.key == cl.phase.channel.opener.key
         && conn.channel.opener.key == cl.phase.channel.sealer.key
         && (forall j | 0 <= j < |w.server.conns| :: w.server.conns[j].seed == conn.seed ==> j == k)
  {
    var n := w.clients[c].phase.seed;
    assert ClientOk(w, c);
    assert ServerHas(w, n);
    k :| 0 <= k < |w.server.conns| && w.server.conns[k].seed == Honest(n);
    var conn := w.server.conns[k];
    assert ConnOk(p, conn) && ConnFromHs3(strict, w, conn);
    var pk := Packet(Some(w.clients[c].addr), Hs3(Msg3(conn.seed, conn.responder, conn.clientKey, Some(conn.seed))));
    assert HonestHs3(pk) && pk in w.net && Hs3Ok(w, pk);
    hide ConnOk, ConnFromHs3, Hs3Ok, ClientOk;
    forall j | 0 <= j < |w.server.conns| && w.server.conns[j].seed == conn.seed ensures j == k {
      OneConnPerSeed(p, strict, w, j, k);
    }
  }

  /** What either end opens under an honest seed was sealed in this run, by the
      one party that holds the other end. */
  lemma OpenedWasSealed(p: Policy, strict: bool, steps: seq<WorldStep>, sender: Option<Addr>, d: Dgram, ch: Channel)
    requires Deliverable(RunWorld(p, strict, steps), sender, d)
    requires Opens(ch, d) && ch.opener.key.seed.Honest?
    ensures
      var w := RunWorld(p, strict, steps);
      && d.record in w.sealed
      && match ch.opener.key.dir
         case C2S => exists c | 0 <= c < |w.clients| ::
                       w.clients[c].phase.Connected? && w.clients[c].phase.channel.sealer.key == ch.opener.key
         case S2C => exists k | 0 <= k < |w.server.conns| ::
                       w.server.conns[k].channel.sealer.key == ch.opener.key
  {
    InvHolds(p, strict, steps);
    var w := RunWorld(p, strict, steps);
    assert Packet(sender, d) in w.net;
    assert SealedBelow(w, d.record);
    var n := ch.opener.key.seed.id;
    if ch.opener.key.dir == C2S {
      assert ClientOk(w, w.owners[n]);
      assert w.clients[w.owners[n]].phase.channel.sealer.key == ch.opener.key;
    } else {
      var k :| 0 <= k < |w.server.conns| && w.server.conns[k].seed == Honest(n);
      assert ConnOk(p, w.server.conns[k]);
    }
  }
}
