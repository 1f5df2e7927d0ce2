/** From every reachable world an honest client can still get through. */
module Completion {
  import opened Common
  import opened Wire
  import opened DataPlane
  import opened PeerTable
  import opened ClientHandshake
  import opened Protocol
  import TableBounds

  /** Both tables have a place for `a`. */
  predicate Room(s: Server, a: Addr) {
    |s.peers| < MAX_PEERS && |s.pending| <= MAX_PENDING && (|s.pending| < MAX_PENDING || a in s.pending)
  }

  /** The server will ask for a cookie that this one is not. */
  predicate WillChallenge(s: Server, a: Addr, cookie: Option<Cookie>, load: bool) {
    EffectiveLoad(s, load) && (cookie.None? || !CookieVerifies(s.epoch, a, cookie.value))
  }

  /** A first message with what the server asks for: under load, a good cookie. */
  lemma ServerAnswersHs1(p: Policy, s: Server, a: Addr, n: nat, cookie: Option<Cookie>, load: bool)
    requires Room(s, a) && Known(s, cookie) && !WillChallenge(s, a, cookie, load)
    ensures
      var out := Step(p, s, Arrive(a, Hs1(Msg1(Honest(n)), cookie), load, 0, 0));
      && out.sent == Some(Output(a, Hs2(Msg2(Honest(n), s.nextResponder))))
      && a in out.server.pending && out.server.pending[a].responder == Responder(s.nextResponder, Honest(n))
  {
  }

  /** Under load, without a cookie or with a stale one: a challenge, which the next
      try can meet. */
  lemma ServerChallenges(p: Policy, s: Server, a: Addr, n: nat, cookie: Option<Cookie>, load: bool)
    requires Room(s, a) && Known(s, cookie) && WillChallenge(s, a, cookie, load)
    ensures
      var out := Step(p, s, Arrive(a, Hs1(Msg1(Honest(n)), cookie), load, 0, 0));
      var issued := Some(Minted(s.epoch, a));
      && out.sent == Some(Output(a, CookieMsg(issued)))
      && Room(out.server, a) && Known(out.server, issued) && !WillChallenge(out.server, a, issued, load)
  {
    var s' := Step(p, s, Arrive(a, Hs1(Msg1(Honest(n)), cookie), load, 0, 0)).server;
    TableBounds.SubmapSize(s'.peers, s.peers);
    TableBounds.SubmapSize(s'.pending, s.pending);
    if a in s.pending && a !in s'.pending {
      TableBounds.SubsetSize(s'.pending.Keys, s.pending.Keys - {a});
      assert |s'.pending| == |s'.pending.Keys| && |s.pending| == |s.pending.Keys|;
    }
  }

  /** The third message that fits what is pending. */
  lemma ServerCompletes(p: Policy, s: Server, a: Addr, m: Msg3)
    requires m.Msg3? && Completes(p, s, a, m)
    ensures
      var out := Step(p, s, Arrive(a, Hs3(m), false, 0, 0));
      out.sent == Some(Output(a, Data(Record(RecordKey(m.payload.value, S2C), 0, Env(Pong)))))
  {
  }

  lemma Then(p: Policy, strict: bool, run: seq<WorldStep>, step: WorldStep)
    ensures RunWorld(p, strict, run + [step]) == Act(p, strict, RunWorld(p, strict, run), step)
  {
    assert (run + [step])[..|run|] == run;
  }

  // ---- Single steps in which nothing is lost --------------------------------------------

  /** A client that is still shaking hands goes on. */
  lemma ClientGoesOn(p: Policy, strict: bool, w: World, c: nat)
    requires c < |w.clients|
    ensures
      var cl, w' := w.clients[c], Act(p, strict, w, ClientGoes(c, true));
      var out := ClientStep(cl.config, cl.phase, GoesOn(w, c, true));
      && w'.server == w.server && |w'.clients| == |w.clients|
      && w'.clients[c] == cl.(phase := out.phase)
      && (out.sent.Some? ==> Packet(Some(cl.addr), out.sent.value) in w'.net)
  {
    hide ClientStep;
  }

  lemma ServerIsHeard(p: Policy, strict: bool, w: World, src: Addr, d: Dgram, load: bool)
    requires Packet(Some(src), d) in w.net
    ensures
      var out, w' := Step(p, w.server, Arrive(src, d, load, 0, 0)), Act(p, strict, w, ServerHears(Some(src), src, d, load, 0, 0));
      && w'.server == out.server && w'.clients == w.clients
      && (out.sent.Some? ==> Packet(None, out.sent.value.dgram) in w'.net)
  {
    hide Step;
  }

  lemma ClientIsTold(p: Policy, strict: bool, w: World, c: nat, d: Dgram)
    requires c < |w.clients| && !w.clients[c].phase.Connected? && Packet(None, d) in w.net
    ensures
      var cl, w' := w.clients[c], Act(p, strict, w, ClientHears(c, None, d, 0));
      && w'.server == w.server && |w'.clients| == |w.clients|
      && w'.clients[c] == cl.(phase := ClientStep(cl.config, cl.phase, Receive(d, 0)).phase)
  {
    hide ClientStep;
  }

  /** Message 1 out, message 2 back. */
  lemma Greet(p: Policy, strict: bool, w: World, c: nat, load: bool, s1: WorldStep, s2: WorldStep, s3: WorldStep)
    returns (w3: World)
    requires c < |w.clients| && w.clients[c].phase.SendHs1? && w.clients[c].phase.tries < MAX_HS_TRIES
    requires Room(w.server, w.clients[c].addr) && Known(w.server, w.clients[c].phase.cookie)
    requires !WillChallenge(w.server, w.clients[c].addr, w.clients[c].phase.cookie, load)
    requires
      var cl, n := w.clients[c], w.clients[c].phase.seed;
      && s1 == ClientGoes(c, true)
      && s2 == ServerHears(Some(cl.addr), cl.addr, Hs1(Msg1(Honest(n)), cl.phase.cookie), load, 0, 0)
      && s3 == ClientHears(c, None, Hs2(Msg2(Honest(n), w.server.nextResponder)), 0)
    ensures w3 == Act(p, strict, Act(p, strict, Act(p, strict, w, s1), s2), s3)
    ensures
      var cl, n, id := w.clients[c], w.clients[c].phase.seed, w.server.nextResponder;
      && |w3.clients| == |w.clients|
      && w3.clients[c] == cl.(phase := SendHs3(cl.phase.attempt, n, Msg3(Honest(n), id, cl.config.key, Some(Honest(n)))))
      && cl.addr in w3.server.pending && w3.server.pending[cl.addr].responder == Responder(id, Honest(n))
  {
    var cl, n := w.clients[c], w.clients[c].phase.seed;
    var answer := Hs2(Msg2(Honest(n), w.server.nextResponder));
    hide Step, Act, Room, Known, WillChallenge;
    ClientGoesOn(p, strict, w, c);
    var w1 := Act(p, strict, w, s1);
    ServerAnswersHs1(p, w1.server, cl.addr, n, cl.phase.cookie, load);
    ServerIsHeard(p, strict, w1, cl.addr, s2.d, load);
    var w2 := Act(p, strict, w1, s2);
    ClientIsTold(p, strict, w2, c, answer);
    w3 := Act(p, strict, w2, s3);
  }

  /** Message 1 out, a challenge back. */
  lemma Challenged(p: Policy, strict: bool, w: World, c: nat, load: bool, s1: WorldStep, s2: WorldStep, s3: WorldStep)
    returns (w3: World)
    requires c < |w.clients| && w.clients[c].phase.SendHs1? && w.clients[c].phase.tries < MAX_HS_TRIES
    requires Room(w.server, w.clients[c].addr) && Known(w.server, w.clients[c].phase.cookie)
    requires WillChallenge(w.server, w.clients[c].addr, w.clients[c].phase.cookie, load)
    requires
      var cl, n := w.clients[c], w.clients[c].phase.seed;
      && s1 == ClientGoes(c, true)
      && s2 == ServerHears(Some(cl.addr), cl.addr, Hs1(Msg1(Honest(n)), cl.phase.cookie), load, 0, 0)
      && s3 == ClientHears(c, None, CookieMsg(Some(Minted(w.server.epoch, cl.addr))), 0)
    ensures w3 == Act(p, strict, Act(p, strict, Act(p, strict, w, s1), s2), s3)
    ensures
      var cl, cookie := w.clients[c], Some(Minted(w.server.epoch, w.clients[c].addr));
      && |w3.clients| == |w.clients|
      && w3.clients[c] == cl.(phase := SendHs1(cl.phase.attempt, cl.phase.seed, cl.phase.tries + 1, cookie))
      && Room(w3.server, cl.addr) && Known(w3.server, cookie) && !WillChallenge(w3.server, cl.addr, cookie, load)
  {
    var cl, n := w.clients[c], w.clients[c].phase.seed;
    hide Step, Act, Room, Known, WillChallenge;
    ClientGoesOn(p, strict, w, c);
    var w1 := Act(p, strict, w, s1);
    ServerChallenges(p, w1.server, cl.addr, n, cl.phase.cookie, load);
    ServerIsHeard(p, strict, w1, cl.addr, s2.d, load);
    var w2 := Act(p, strict, w1, s2);
    ClientIsTold(p, strict, w2, c, s3.d);
    w3 := Act(p, strict, w2, s3);
  }

  /** Message 3 out, the ready record back. */
  lemma Confirm(p: Policy, strict: bool, w: World, c: nat, s1: WorldStep, s2: WorldStep, s3: WorldStep) returns (w3: World)
    requires c < |w.clients| && w.clients[c].phase.SendHs3?
    requires
      var cl, n, m := w.clients[c], w.clients[c].phase.seed, w.clients[c].phase.msg3;
      && m.Msg3? && m.payload == Some(Honest(n)) && Completes(p, w.server, cl.addr, m)
      && s1 == ClientGoes(c, true)
      && s2 == ServerHears(Some(cl.addr), cl.addr, Hs3(m), false, 0, 0)
      && s3 == ClientHears(c, None, Data(Record(RecordKey(Honest(n), S2C), 0, Env(Pong))), 0)
    ensures w3 == Act(p, strict, Act(p, strict, Act(p, strict, w, s1), s2), s3)
    ensures c < |w3.clients| && w3.clients[c].phase.Connected? && w3.clients[c].phase.seed == w.clients[c].phase.seed
  {
    var cl, n, m := w.clients[c], w.clients[c].phase.seed, w.clients[c].phase.msg3;
    hide Step, Act;
    ClientGoesOn(p, strict, w, c);
    var w1 := Act(p, strict, w, s1);
    ServerCompletes(p, w1.server, cl.addr, m);
    ServerIsHeard(p, strict, w1, cl.addr, s2.d, false);
    var w2 := Act(p, strict, w1, s2);
    ClientIsTold(p, strict, w2, c, s3.d);
    w3 := Act(p, strict, w2, s3);
  }

  lemma ThenThree(p: Policy, strict: bool, run: seq<WorldStep>, s1: WorldStep, s2: WorldStep, s3: WorldStep)
    ensures RunWorld(p, strict, run + [s1] + [s2] + [s3])
            == Act(p, strict, Act(p, strict, Act(p, strict, RunWorld(p, strict, run), s1), s2), s3)
  {
    hide Act, RunWorld;
    Then(p, strict, run, s1);
    Then(p, strict, run + [s1], s2);
    Then(p, strict, run + [s1] + [s2], s3);
  }

  /** Six steps in which nothing is lost, for a client the server will admit. */
  lemma AdmittedCompletes(p: Policy, strict: bool, run: seq<WorldStep>, c: nat, load: bool) returns (run': seq<WorldStep>)
    requires
      var w := RunWorld(p, strict, run);
      && c < |w.clients| && p.gate(w.clients[c].config.key)
      && w.clients[c].phase.SendHs1? && w.clients[c].phase.tries < MAX_HS_TRIES
      && Room(w.server, w.clients[c].addr) && Known(w.server, w.clients[c].phase.cookie)
      && !WillChallenge(w.server, w.clients[c].addr, w.clients[c].phase.cookie, load)
    ensures |run'| == |run| + 6 && run <= run'
    ensures
      var w, w' := RunWorld(p, strict, run), RunWorld(p, strict, run');
      c < |w'.clients| && w'.clients[c].phase.Connected? && w'.clients[c].phase.seed == w.clients[c].phase.seed
  {
    hide Act, RunWorld, Room, Known, WillChallenge;
    var w := RunWorld(p, strict, run);
    var cl, n, id := w.clients[c], w.clients[c].phase.seed, w.server.nextResponder;
    var s1 := ClientGoes(c, true);
    var s2 := ServerHears(Some(cl.addr), cl.addr, Hs1(Msg1(Honest(n)), cl.phase.cookie), load, 0, 0);
    var s3 := ClientHears(c, None, Hs2(Msg2(Honest(n), id)), 0);
    var w3 := Greet(p, strict, w, c, load, s1, s2, s3);
    ThenThree(p, strict, run, s1, s2, s3);
    var half := run + [s1] + [s2] + [s3];
    var s5 := ServerHears(Some(cl.addr), cl.addr, Hs3(w3.clients[c].phase.msg3), false, 0, 0);
    var s6 := ClientHears(c, None, Data(Record(RecordKey(Honest(n), S2C), 0, Env(Pong))), 0);
    var w6 := Confirm(p, strict, w3, c, s1, s5, s6);
    ThenThree(p, strict, half, s1, s5, s6);
    run' := half + [s1] + [s5] + [s6];
  }

  // ---- What every run keeps ---------------------------------------------------------

  predicate HoldsCookie(ph: Phase) {
    ph.SendHs1? || ph.AwaitMsg2?
  }

  /** The tables are within their bounds, and the cookies on their way to clients
      and with them are the server's, or worthless. */
  predicate Sound(w: World) {
    && TableBounds.Bounded(w.server)
    && (forall pk | pk in w.net && pk.d.CookieMsg? :: Known(w.server, pk.d.challenge))
    && (forall c | 0 <= c < |w.clients| && HoldsCookie(w.clients[c].phase) :: Known(w.server, w.clients[c].phase.cookie))
  }

  /** Where a client has its cookie from. */
  lemma ClientCookie(c: ClientConfig, ph: Phase, ev: ClientEvent)
    ensures
      var out := ClientStep(c, ph, ev);
      && (out.sent.Some? ==> !out.sent.value.CookieMsg?)
      && (HoldsCookie(out.phase) ==>
            || out.phase.cookie.None?
            || (HoldsCookie(ph) && out.phase.cookie == ph.cookie)
            || (ev.Receive? && ev.d == CookieMsg(out.phase.cookie)))
  {
  }

  lemma StepCookies(p: Policy, s: Server, ev: ServerEvent)
    ensures
      var out := Step(p, s, ev);
      && s.issued <= out.server.issued
      && (out.sent.Some? && out.sent.value.dgram.CookieMsg? ==> Known(out.server, out.sent.value.dgram.challenge))
  {
    hide Route, Finish;
    if ev.Arrive? {
      var now := s.clock + ev.before;
      RouteCookies(p, s, ev.src, ev.d, ev.load, now);
      FinishEffect(Route(p, s, ev.src, ev.d, ev.load, now), now + ev.after);
    }
  }

  lemma RouteCookies(p: Policy, s: Server, src: Addr, d: Dgram, load: bool, now: nat)
    ensures
      var out := Route(p, s, src, d, load, now);
      && s.issued <= out.server.issued
      && (out.sent.Some? && out.sent.value.dgram.CookieMsg? ==> Known(out.server, out.sent.value.dgram.challenge))
  {
    hide AfterData, NewConn;
  }

  lemma ServerMovesSound(p: Policy, w: World, ev: ServerEvent)
    requires Sound(w)
    ensures Sound(ServerMoves(p, w, ev))
  {
    hide Step, TableBounds.Bounded;
    StepCookies(p, w.server, ev);
    TableBounds.StepKeepsBounds(p, w.server, ev);
  }

  lemma MoveClientSound(w: World, c: nat, ev: ClientEvent)
    requires Sound(w) && c < |w.clients|
    requires ev.Receive? && ev.d.CookieMsg? ==> Known(w.server, ev.d.challenge)
    ensures Sound(MoveClient(w, c, ev))
  {
    hide ClientStep, TableBounds.Bounded, Known;
    ClientCookie(w.clients[c].config, w.clients[c].phase, ev);
    NoneKnown(w.server);
  }

  lemma NoneKnown(s: Server)
    ensures Known(s, None)
  {
  }

  lemma ActSound(p: Policy, strict: bool, w: World, step: WorldStep)
    requires Sound(w)
    ensures Sound(Act(p, strict, w, step))
  {
    hide MoveClient, ServerMoves, TableBounds.Bounded, Known;
    if Allowed(strict, w, step) {
      match step
      case ClientGoes(c, ok) => MoveClientSound(w, c, GoesOn(w, c, ok));
      case ClientHears(c, sender, d, after) => MoveClientSound(w, c, Receive(d, after));
      case ClientWaitsOut(c) => MoveClientSound(w, c, Expire);
      case ClientSocketFails(c, after) => MoveClientSound(w, c, RecvError(after));
      case ServerHears(_, src, d, load, before, after) => ServerMovesSound(p, w, Arrive(src, d, load, before, after));
      case ServerWorks(ev) => ServerMovesSound(p, w, ev);
      case _ =>
    }
  }

  lemma {:induction false} RunSound(p: Policy, strict: bool, steps: seq<WorldStep>)
    ensures Sound(RunWorld(p, strict, steps))
  {
    if steps != [] {
      hide Act, Sound;
      RunSound(p, strict, steps[..|steps| - 1]);
      ActSound(p, strict, RunWorld(p, strict, steps[..|steps| - 1]), steps[|steps| - 1]);
    }
  }

  /** After any run, whether or not the server is under load, and whatever cookie the
      client holds: a client about to send its first message gets connected by six
      further steps in which nothing is lost, or nine if it is to be challenged and has
      a try left for that, provided the tables have room for it. */
  lemma HandshakeCompletes(p: Policy, strict: bool, run: seq<WorldStep>, c: nat, load: bool) returns (run': seq<WorldStep>)
    requires
      var w := RunWorld(p, strict, run);
      && c < |w.clients| && p.gate(w.clients[c].config.key)
      && w.clients[c].phase.SendHs1?
      && w.clients[c].phase.tries
         + (if WillChallenge(w.server, w.clients[c].addr, w.clients[c].phase.cookie, load) then 1 else 0) < MAX_HS_TRIES
      && |w.server.peers| < MAX_PEERS && (|w.server.pending| < MAX_PENDING || w.clients[c].addr in w.server.pending)
    ensures
      var w := RunWorld(p, strict, run);
      && run <= run'
      && |run'| == |run| + if WillChallenge(w.server, w.clients[c].addr, w.clients[c].phase.cookie, load) then 9 else 6
    ensures
      var w, w' := RunWorld(p, strict, run), RunWorld(p, strict, run');
      c < |w'.clients| && w'.clients[c].phase.Connected? && w'.clients[c].phase.seed == w.clients[c].phase.seed
  {
    hide Act, RunWorld, WillChallenge;
    var w := RunWorld(p, strict, run);
    RunSound(p, strict, run);
    if WillChallenge(w.server, w.clients[c].addr, w.clients[c].phase.cookie, load) {
      var cl, n := w.clients[c], w.clients[c].phase.seed;
      var s1 := ClientGoes(c, true);
      var s2 := ServerHears(Some(cl.addr), cl.addr, Hs1(Msg1(Honest(n)), cl.phase.cookie), load, 0, 0);
      var s3 := ClientHears(c, None, CookieMsg(Some(Minted(w.server.epoch, cl.addr))), 0);
      var w3 := Challenged(p, strict, w, c, load, s1, s2, s3);
      ThenThree(p, strict, run, s1, s2, s3);
      run' := AdmittedCompletes(p, strict, run + [s1] + [s2] + [s3], c, load);
    } else {
      run' := AdmittedCompletes(p, strict, run, c, load);
    }
  }
}
