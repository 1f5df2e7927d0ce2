/**
 The client's side of the UDP handshake (src/udp/handshake.rs).

 `ClientStep` is the control flow of `client_udp_handshake` as a machine: one
 state for each point where it draws a seed, sends, or waits. Every run of the
 machine keeps to a fixed budget of datagrams and time, and the nested loops of
 the source, below, are a run of it.
 */
module ClientHandshake {
  import opened Common
  import opened Wire
  import opened DataPlane

  const RETRANSMIT_INTERVAL: nat := 250
  const MAX_HS_TRIES: nat := 12
  const MAX_HANDSHAKE_ATTEMPTS: nat := 3
  const READY_WAIT_TIMEOUT: nat := 2000
  const RESEND_WAIT: nat := 500
  const MAX_RESENDS: nat := 3

  /** `seed` numbers the honest draw of the attempt: its ephemeral key and its
      seed. `left` is what remains of the current wait, in milliseconds. */
  datatype Phase =
    | Opening(attempt: nat)
    | SendHs1(attempt: nat, seed: nat, tries: nat, cookie: Option<Cookie>)
    | AwaitMsg2(attempt: nat, seed: nat, tries: nat, cookie: Option<Cookie>, left: nat)
    | SendHs3(attempt: nat, seed: nat, msg3: Msg3)
    | AwaitReady(attempt: nat, seed: nat, msg3: Msg3, round: nat, channel: Channel, left: nat)
    | ResendHs3(attempt: nat, seed: nat, msg3: Msg3, round: nat, channel: Channel)
    | Connected(seed: nat, channel: Channel)
    | Failed

  /** `Draw`: the attempt draws its seed. `Go`: the next send, or the end of a
      retransmission loop (`ok`: the socket took it).
      `Receive`: a datagram from the server's address, `after` ms into the wait.
      `Expire`: the wait runs out. `RecvError`: the socket fails. */
  datatype ClientEvent =
    | Draw(seed: nat)
    | Go(ok: bool)
    | Receive(d: Dgram, after: nat)
    | Expire
    | RecvError(after: nat)

  datatype ClientConfig = ClientConfig(key: StaticKey, window: nat)

  datatype ClientOut = ClientOut(phase: Phase, sent: Option<Dgram>, waited: nat)

  function Quiet(ph: Phase, waited: nat): ClientOut {
    ClientOut(ph, None, waited)
  }

  /** A send, or the end of a loop. Only the first send of each message ends the handshake
      when the socket refuses it; a refused resend is overlooked. */
  function OnGo(c: ClientConfig, ph: Phase, ok: bool): ClientOut {
    match ph
    case SendHs1(a, n, tries, cookie) =>
      if tries >= MAX_HS_TRIES then Quiet(Opening(a + 1), 0)
      else if !ok then Quiet(Failed, 0)
      else ClientOut(AwaitMsg2(a, n, tries + 1, cookie, RETRANSMIT_INTERVAL), Some(Hs1(Msg1(Honest(n)), cookie)), 0)
    case SendHs3(a, n, m) =>
      if !ok then Quiet(Failed, 0)
      else ClientOut(AwaitReady(a, n, m, 0, ClientChannel(Honest(n), c.window), READY_WAIT_TIMEOUT), Some(Hs3(m)), 0)
    case ResendHs3(a, n, m, round, ch) =>
      if round >= MAX_RESENDS then Quiet(Opening(a + 1), 0)
      else ClientOut(AwaitReady(a, n, m, round + 1, ch, RESEND_WAIT), if ok then Some(Hs3(m)) else None, 0)
    case _ => Quiet(ph, 0)
  }

  /** A datagram while waiting for message 2: any but an Hs2 uses up the try. */
  function OnAnswer(c: ClientConfig, ph: Phase, d: Dgram, after: nat): ClientOut
    requires ph.AwaitMsg2?
  {
    match d
    case Hs2(m) =>
      if m.Msg2? && m.initiator == Honest(ph.seed) then
        Quiet(SendHs3(ph.attempt, ph.seed, Msg3(Honest(ph.seed), m.responder, c.key, Some(Honest(ph.seed)))), after)
      else Quiet(Opening(ph.attempt + 1), after)
    case CookieMsg(Some(cookie)) => Quiet(SendHs1(ph.attempt, ph.seed, ph.tries, Some(cookie)), after)
    case _ => Quiet(SendHs1(ph.attempt, ph.seed, ph.tries, ph.cookie), after)
  }

  /** A datagram while waiting for the ready record: whatever opens will do. */
  function OnReady(ph: Phase, d: Dgram, after: nat): ClientOut
    requires ph.AwaitReady? && after <= ph.left
  {
    var ch := AfterOpen(ph.channel, d);
    if Opened(ph.channel, d).Some? then Quiet(Connected(ph.seed, ch), after)
    else Quiet(ph.(channel := ch, left := ph.left - after), after)
  }

  function ClientStep(c: ClientConfig, ph: Phase, ev: ClientEvent): ClientOut {
    match (ev, ph)
    case (Draw(n), Opening(a)) =>
      Quiet(if a < MAX_HANDSHAKE_ATTEMPTS then SendHs1(a, n, 0, None) else Failed, 0)
    case (Go(ok), _) => OnGo(c, ph, ok)
    case (Receive(d, after), AwaitMsg2(_, _, _, _, left)) =>
      if after <= left then OnAnswer(c, ph, d, after) else Quiet(ph, 0)
    case (Receive(d, after), AwaitReady(_, _, _, _, _, left)) =>
      if after <= left then OnReady(ph, d, after) else Quiet(ph, 0)
    case (Expire, AwaitMsg2(a, n, tries, cookie, left)) => Quiet(SendHs1(a, n, tries, cookie), left)
    case (Expire, AwaitReady(a, n, m, round, ch, left)) => Quiet(ResendHs3(a, n, m, round, ch), left)
    case (RecvError(after), AwaitMsg2(_, _, _, _, left)) =>
      if after <= left then Quiet(Failed, after) else Quiet(ph, 0)
    case (RecvError(after), AwaitReady(a, n, m, round, ch, left)) =>
      if after <= left then Quiet(ResendHs3(a, n, m, round, ch), after) else Quiet(ph, 0)
    case _ => Quiet(ph, 0)
  }

  // ---- Runs and their budget -------------------------------------------------

  /** What a run has done: where it stands, what it has sent, how long it waited. */
  datatype Progress = Progress(phase: Phase, sent: seq<Dgram>, waited: nat)

  function Advance(c: ClientConfig, p: Progress, ev: ClientEvent): Progress {
    var out := ClientStep(c, p.phase, ev);
    Progress(out.phase, if out.sent.None? then p.sent else p.sent + [out.sent.value], p.waited + out.waited)
  }

  function RunClient(c: ClientConfig, evs: seq<ClientEvent>): Progress {
    if evs == [] then Progress(Opening(0), [], 0)
    else Advance(c, RunClient(c, evs[..|evs| - 1]), evs[|evs| - 1])
  }

  predicate InRange(ph: Phase) {
    match ph
    case Opening(a) => a <= 3
    case SendHs1(a, _, tries, _) => a < 3 && tries <= 12
    case AwaitMsg2(a, _, tries, _, _) => a < 3 && tries <= 12
    case SendHs3(a, _, _) => a < 3
    case AwaitReady(a, _, _, round, _, _) => a < 3 && round <= 3
    case ResendHs3(a, _, _, round, _) => a < 3 && round <= 3
    case Connected(_, _) => true
    case Failed => true
  }

  /** The most that can still be sent: an attempt is 12 + 1 + 3 datagrams. */
  function SendsLeft(ph: Phase): nat
    requires InRange(ph)
  {
    match ph
    case Opening(a) => 16 * (3 - a)
    case SendHs1(a, _, tries, _) => 16 * (2 - a) + (12 - tries) + 4
    case AwaitMsg2(a, _, tries, _, _) => 16 * (2 - a) + (12 - tries) + 4
    case SendHs3(a, _, _) => 16 * (2 - a) + 4
    case AwaitReady(a, _, _, round, _, _) => 16 * (2 - a) + 3 - round
    case ResendHs3(a, _, _, round, _) => 16 * (2 - a) + 3 - round
    case Connected(_, _) => 0
    case Failed => 0
  }

  /** The longest that can still be waited: an attempt is 3000 + 2000 + 1500 ms. */
  function WaitLeft(ph: Phase): nat
    requires InRange(ph)
  {
    match ph
    case Opening(a) => 6500 * (3 - a)
    case SendHs1(a, _, tries, _) => 6500 * (2 - a) + 250 * (12 - tries) + 3500
    case AwaitMsg2(a, _, tries, _, left) => 6500 * (2 - a) + left + 250 * (12 - tries) + 3500
    case SendHs3(a, _, _) => 6500 * (2 - a) + 3500
    case AwaitReady(a, _, _, round, _, left) => 6500 * (2 - a) + left + 500 * (3 - round)
    case ResendHs3(a, _, _, round, _) => 6500 * (2 - a) + 500 * (3 - round)
    case Connected(_, _) => 0
    case Failed => 0
  }

  /** What it sends and waits comes out of what it has left. */
  predicate Spends(ph: Phase, out: ClientOut)
    requires InRange(ph)
  {
    && InRange(out.phase)
    && (if out.sent.Some? then 1 else 0) + SendsLeft(out.phase) <= SendsLeft(ph)
    && out.waited + WaitLeft(out.phase) <= WaitLeft(ph)
  }

  lemma GoSpends(c: ClientConfig, ph: Phase, ok: bool)
    requires InRange(ph)
    ensures Spends(ph, OnGo(c, ph, ok))
  {
  }

  lemma HearingSpends(c: ClientConfig, ph: Phase, d: Dgram, after: nat)
    requires InRange(ph)
    ensures ph.AwaitMsg2? && after <= ph.left ==> Spends(ph, OnAnswer(c, ph, d, after))
    ensures ph.AwaitReady? && after <= ph.left ==> Spends(ph, OnReady(ph, d, after))
  {
    hide AfterOpen, Opened;
  }

  lemma StepSpends(c: ClientConfig, ph: Phase, ev: ClientEvent)
    requires InRange(ph)
    ensures Spends(ph, ClientStep(c, ph, ev))
  {
    hide OnGo, OnAnswer, OnReady;
    if ev.Go? {
      GoSpends(c, ph, ev.ok);
    } else if ev.Receive? {
      HearingSpends(c, ph, ev.d, ev.after);
    }
  }

  lemma {:induction false} RunSpends(c: ClientConfig, evs: seq<ClientEvent>)
    ensures
      var p := RunClient(c, evs);
      && InRange(p.phase)
      && |p.sent| + SendsLeft(p.phase) <= 48
      && p.waited + WaitLeft(p.phase) <= 19500
  {
    if evs != [] {
      RunSpends(c, evs[..|evs| - 1]);
      StepSpends(c, RunClient(c, evs[..|evs| - 1]).phase, evs[|evs| - 1]);
    }
  }

  /** Whatever arrives, and however the socket behaves: at most 48 datagrams and
      at most 19.5 s of waiting. */
  lemma HandshakeBudget(c: ClientConfig, evs: seq<ClientEvent>)
    ensures |RunClient(c, evs).sent| <= 48
    ensures RunClient(c, evs).waited <= 19500
  {
    RunSpends(c, evs);
  }

  lemma RunExtends(c: ClientConfig, evs: seq<ClientEvent>, ev: ClientEvent)
    ensures RunClient(c, evs + [ev]) == Advance(c, RunClient(c, evs), ev)
  {
    assert (evs + [ev])[..|evs|] == evs;
  }

  /** From the start of an attempt, `t` unanswered sends of message 1. */
  lemma {:induction false} Unanswered(c: ClientConfig, evs0: seq<ClientEvent>, a: nat, n: nat, t: nat)
    returns (evs: seq<ClientEvent>)
    requires RunClient(c, evs0).phase == SendHs1(a, n, 0, None) && t <= MAX_HS_TRIES
    ensures
      var p0, p := RunClient(c, evs0), RunClient(c, evs);
      p.phase == SendHs1(a, n, t, None) && |p.sent| == |p0.sent| + t && p.waited == p0.waited + 250 * t
  {
    hide RunClient;
    evs := evs0;
    if t > 0 {
      evs := Unanswered(c, evs0, a, n, t - 1);
      RunExtends(c, evs, Go(true));
      RunExtends(c, evs + [Go(true)], Expire);
      evs := evs + [Go(true)] + [Expire];
    }
  }

  /** From the first wait for the ready record, `k` fruitless resends. */
  lemma {:induction false} Unconfirmed(c: ClientConfig, evs0: seq<ClientEvent>, a: nat, n: nat, m: Msg3, ch: Channel, k: nat)
    returns (evs: seq<ClientEvent>)
    requires RunClient(c, evs0).phase == AwaitReady(a, n, m, 0, ch, READY_WAIT_TIMEOUT) && k <= MAX_RESENDS
    ensures
      var p0, p := RunClient(c, evs0), RunClient(c, evs);
      && p.phase == ResendHs3(a, n, m, k, ch)
      && |p.sent| == |p0.sent| + k && p.waited == p0.waited + READY_WAIT_TIMEOUT + 500 * k
  {
    hide RunClient;
    if k == 0 {
      RunExtends(c, evs0, Expire);
      evs := evs0 + [Expire];
    } else {
      evs := Unconfirmed(c, evs0, a, n, m, ch, k - 1);
      RunExtends(c, evs, Go(true));
      RunExtends(c, evs + [Go(true)], Expire);
      evs := evs + [Go(true)] + [Expire];
    }
  }

  /** The twelfth message 1 is answered at the last moment, and then nothing. */
  lemma LateAnswer(c: ClientConfig, evs0: seq<ClientEvent>, a: nat) returns (evs: seq<ClientEvent>, m: Msg3)
    requires RunClient(c, evs0).phase == Opening(a) && a < MAX_HANDSHAKE_ATTEMPTS
    ensures
      var p0, p := RunClient(c, evs0), RunClient(c, evs);
      && p.phase == AwaitReady(a, a, m, 0, ClientChannel(Honest(a), c.window), READY_WAIT_TIMEOUT)
      && |p.sent| == |p0.sent| + 13 && p.waited == p0.waited + 3000
  {
    hide RunClient;
    RunExtends(c, evs0, Draw(a));
    evs := Unanswered(c, evs0 + [Draw(a)], a, a, MAX_HS_TRIES - 1);
    var answer := Receive(Hs2(Msg2(Honest(a), 0)), RETRANSMIT_INTERVAL);
    m := Msg3(Honest(a), 0, c.key, Some(Honest(a)));
    RunExtends(c, evs, Go(true));
    RunExtends(c, evs + [Go(true)], answer);
    RunExtends(c, evs + [Go(true)] + [answer], Go(true));
    evs := evs + [Go(true)] + [answer] + [Go(true)];
  }

  lemma {:induction false} LostAttempts(c: ClientConfig, a: nat) returns (evs: seq<ClientEvent>)
    requires a <= MAX_HANDSHAKE_ATTEMPTS
    ensures
      var p := RunClient(c, evs);
      p.phase == Opening(a) && |p.sent| == 16 * a && p.waited == 6500 * a
  {
    evs := [];
    if a > 0 {
      hide RunClient;
      evs := LostAttempts(c, a - 1);
      var m;
      evs, m := LateAnswer(c, evs, a - 1);
      evs := Unconfirmed(c, evs, a - 1, a - 1, m, ClientChannel(Honest(a - 1), c.window), MAX_RESENDS);
      RunExtends(c, evs, Go(true));
      evs := evs + [Go(true)];
    }
  }

  /** The budget is exact: some run spends all of it. */
  lemma BudgetAttained(c: ClientConfig) returns (evs: seq<ClientEvent>)
    ensures
      var p := RunClient(c, evs);
      p.phase == Failed && |p.sent| == 48 && p.waited == 19500
  {
    evs := LostAttempts(c, MAX_HANDSHAKE_ATTEMPTS);
    hide RunClient;
    RunExtends(c, evs, Draw(0));
    evs := evs + [Draw(0)];
  }

  // ---- The machine in its surroundings ----------------------------------------

  /** Something the socket will report at time `at`: a datagram, from the
      server's address or from elsewhere, or (`None`) an error. */
  datatype Arrival = Arrival(at: nat, fromServer: bool, what: Option<Dgram>)

  datatype Received = Got(d: Dgram) | Broken | TimedOut

  /** The client's clock and socket. `inbox` is what is still to come, in order;
      `refusals` says which of the coming sends fail. */
  datatype Around = Around(now: nat, inbox: seq<Arrival>, refusals: seq<bool>)

  datatype Listening = Listening(env: Around, what: Received)

  predicate SendSucceeds(env: Around) {
    env.refusals == [] || !env.refusals[0]
  }

  function AfterSend(env: Around): Around {
    if env.refusals == [] then env else env.(refusals := env.refusals[1..])
  }

  /** Wait until `deadline` for the server or an error; other sources are skipped. */
  function Listen(env: Around, deadline: nat): (r: Listening)
    requires env.now <= deadline
    ensures env.now <= r.env.now <= deadline && r.env.refusals == env.refusals
    ensures r.what.TimedOut? ==> r.env.now == deadline
    decreases |env.inbox|
  {
    if env.inbox == [] || env.inbox[0].at > deadline then Listening(env.(now := deadline), TimedOut)
    else
      var next := env.inbox[0];
      var env' := Around(if env.now < next.at then next.at else env.now, env.inbox[1..], env.refusals);
      match next.what
      case None => Listening(env', Broken)
      case Some(d) => if next.fromServer then Listening(env', Got(d)) else Listen(env', deadline)
  }

  /** The event the surroundings have for a client in phase `ph`. */
  datatype Turn = Turn(ev: ClientEvent, env: Around)

  function SendTurn(env: Around): Turn {
    Turn(Go(SendSucceeds(env)), AfterSend(env))
  }

  function ListenTurn(env: Around, left: nat): Turn {
    var r := Listen(env, env.now + left);
    var ev :=
      match r.what
      case TimedOut => Expire
      case Broken => RecvError(r.env.now - env.now)
      case Got(d) => Receive(d, r.env.now - env.now);
    Turn(ev, r.env)
  }

  function NextTurn(draws: seq<nat>, env: Around, ph: Phase): Turn {
    match ph
    case Opening(a) => Turn(Draw(if a < |draws| then draws[a] else 0), env)
    case SendHs1(_, _, tries, _) => if tries >= MAX_HS_TRIES then Turn(Go(true), env) else SendTurn(env)
    case AwaitMsg2(_, _, _, _, left) => ListenTurn(env, left)
    case SendHs3(_, _, _) => SendTurn(env)
    case AwaitReady(_, _, _, _, _, left) => ListenTurn(env, left)
    case ResendHs3(_, _, _, round, _) => if round >= MAX_RESENDS then Turn(Go(true), env) else SendTurn(env)
    case _ => Turn(Go(true), env)
  }

  /** Client and surroundings after `n` turns, and the events of those turns. */
  datatype Joint = Joint(progress: Progress, env: Around, evs: seq<ClientEvent>)

  function Drive(c: ClientConfig, draws: seq<nat>, env: Around, n: nat): Joint {
    if n == 0 then Joint(Progress(Opening(0), [], 0), env, [])
    else
      var j := Drive(c, draws, env, n - 1);
      var t := NextTurn(draws, j.env, j.progress.phase);
      Joint(Advance(c, j.progress, t.ev), t.env, j.evs + [t.ev])
  }

  /** What the client was told, event by event: datagrams and errors. */
  function Reports(evs: seq<ClientEvent>): seq<Option<Dgram>> {
    if evs == [] then [] else Reports(evs[..|evs| - 1]) + Told(evs[|evs| - 1])
  }

  function Told(ev: ClientEvent): seq<Option<Dgram>> {
    match ev
    case Receive(d, _) => [Some(d)]
    case RecvError(_) => [None]
    case _ => []
  }

  /** What there is to tell of an arrival: nothing, if it is another source's datagram. */
  function Worth(a: Arrival): seq<Option<Dgram>> {
    if a.what.None? || a.fromServer then [a.what] else []
  }

  function Noticed(arrivals: seq<Arrival>): seq<Option<Dgram>> {
    if arrivals == [] then [] else Worth(arrivals[0]) + Noticed(arrivals[1..])
  }

  /** From `before` to `after` exactly what the events report was taken, in order. */
  predicate Took(before: seq<Arrival>, after: seq<Arrival>, evs: seq<ClientEvent>) {
    && |after| <= |before|
    && before[|before| - |after|..] == after
    && Reports(evs) == Noticed(before[..|before| - |after|])
  }

  lemma {:induction false} NoticedConcat(a: seq<Arrival>, b: seq<Arrival>)
    ensures Noticed(a + b) == Noticed(a) + Noticed(b)
  {
    hide Worth, Noticed;
    if a == [] {
      NoticedNothing();
      assert a + b == b;
    } else {
      NoticedConcat(a[1..], b);
      NoticedCons(a[0], a[1..]);
      NoticedCons(a[0], a[1..] + b);
      assert a == [a[0]] + a[1..] && a + b == [a[0]] + (a[1..] + b);
      assert Worth(a[0]) + (Noticed(a[1..]) + Noticed(b)) == Worth(a[0]) + Noticed(a[1..]) + Noticed(b);
    }
  }

  /** Waiting takes strays and then at most one arrival worth telling, the one
      it reports. */
  lemma {:induction false} ListenTakes(env: Around, deadline: nat) returns (taken: seq<Arrival>)
    requires env.now <= deadline
    ensures
      var r := Listen(env, deadline);
      && env.inbox == taken + r.env.inbox
      && Noticed(taken) == (match r.what
                            case TimedOut => []
                            case Broken => [None]
                            case Got(d) => [Some(d)])
      && (r.what.TimedOut? ==> r.env.inbox == [] || r.env.inbox[0].at > deadline)
    decreases |env.inbox|
  {
    hide Noticed;
    taken := [];
    NoticedNothing();
    if env.inbox != [] && env.inbox[0].at <= deadline {
      var next := env.inbox[0];
      assert env.inbox == [next] + env.inbox[1..];
      if next.what.Some? && !next.fromServer {
        var env' := Around(if env.now < next.at then next.at else env.now, env.inbox[1..], env.refusals);
        taken := ListenTakes(env', deadline);
      }
      NoticedCons(next, taken);
      assert [next] + taken + Listen(env, deadline).env.inbox == [next] + (taken + Listen(env, deadline).env.inbox);
      taken := [next] + taken;
    }
  }

  lemma ReportsMore(evs: seq<ClientEvent>, ev: ClientEvent)
    ensures Reports(evs + [ev]) == Reports(evs) + Told(ev)
  {
    assert (evs + [ev])[..|evs|] == evs;
  }

  lemma TookThese(taken: seq<Arrival>, after: seq<Arrival>, evs: seq<ClientEvent>)
    requires Reports(evs) == Noticed(taken)
    ensures Took(taken + after, after, evs)
  {
    hide Reports, Noticed;
    assert (taken + after)[..|taken|] == taken && (taken + after)[|taken|..] == after;
  }

  lemma WhatWasTaken(before: seq<Arrival>, after: seq<Arrival>, evs: seq<ClientEvent>) returns (taken: seq<Arrival>)
    requires Took(before, after, evs)
    ensures before == taken + after && Reports(evs) == Noticed(taken)
  {
    hide Reports, Noticed;
    taken := before[..|before| - |after|];
  }

  lemma TookMore(before: seq<Arrival>, mid: seq<Arrival>, after: seq<Arrival>, taken: seq<Arrival>,
                 evs: seq<ClientEvent>, ev: ClientEvent)
    requires Took(before, mid, evs) && mid == taken + after && Noticed(taken) == Told(ev)
    ensures Took(before, after, evs + [ev])
  {
    hide *;
    var first := WhatWasTaken(before, mid, evs);
    NoticedConcat(first, taken);
    ReportsMore(evs, ev);
    TookThese(first + taken, after, evs + [ev]);
    assert first + taken + after == first + (taken + after);
  }

  lemma ListenTurnTakes(env: Around, left: nat) returns (taken: seq<Arrival>)
    ensures var t := ListenTurn(env, left); env.inbox == taken + t.env.inbox && Noticed(taken) == Told(t.ev)
  {
    hide Listen, Noticed;
    taken := ListenTakes(env, env.now + left);
  }

  lemma TurnTakes(draws: seq<nat>, env: Around, ph: Phase, before: seq<Arrival>, evs: seq<ClientEvent>)
    requires Took(before, env.inbox, evs)
    ensures var t := NextTurn(draws, env, ph); Took(before, t.env.inbox, evs + [t.ev])
  {
    hide Took, Noticed, ListenTurn;
    var t := NextTurn(draws, env, ph);
    var taken: seq<Arrival> := [];
    NoticedNothing();
    if ph.AwaitMsg2? || ph.AwaitReady? {
      taken := ListenTurnTakes(env, ph.left);
    }
    assert env.inbox == taken + t.env.inbox;
    TookMore(before, env.inbox, t.env.inbox, taken, evs, t.ev);
  }

  lemma NoticedNothing()
    ensures Noticed([]) == []
  {
  }

  lemma NoticedCons(a: Arrival, rest: seq<Arrival>)
    ensures Noticed([a] + rest) == Worth(a) + Noticed(rest)
  {
    assert ([a] + rest)[1..] == rest;
  }

  /** The time that passes is the time the client waits. */
  lemma TurnTime(c: ClientConfig, draws: seq<nat>, env: Around, ph: Phase)
    ensures var t := NextTurn(draws, env, ph); t.env.now == env.now + ClientStep(c, ph, t.ev).waited
  {
  }

  /** The driven machine is a run of the machine, on the time of the clock, and it
      was told exactly what arrived. */
  lemma {:induction false} DriveIsRun(c: ClientConfig, draws: seq<nat>, env: Around, n: nat)
    ensures
      var j := Drive(c, draws, env, n);
      && j.progress == RunClient(c, j.evs)
      && j.env.now == env.now + j.progress.waited
      && Took(env.inbox, j.env.inbox, j.evs)
  {
    hide NextTurn, ClientStep;
    if n == 0 {
      assert env.inbox[..0] == [];
    } else {
      hide Took;
      DriveIsRun(c, draws, env, n - 1);
      var j := Drive(c, draws, env, n - 1);
      RunExtends(c, j.evs, NextTurn(draws, j.env, j.progress.phase).ev);
      TurnTime(c, draws, j.env, j.progress.phase);
      TurnTakes(draws, j.env, j.progress.phase, env.inbox, j.evs);
    }
  }

  predicate Settled(ph: Phase) {
    ph.Connected? || ph.Failed?
  }

  /** Once it has an outcome, the outcome stands: it depends on the surroundings alone. */
  lemma {:induction false} OutcomeStands(c: ClientConfig, draws: seq<nat>, env: Around, n: nat, m: nat)
    requires n <= m && Settled(Drive(c, draws, env, n).progress.phase)
    ensures Drive(c, draws, env, m).progress == Drive(c, draws, env, n).progress
    ensures Drive(c, draws, env, m).env == Drive(c, draws, env, n).env
  {
    hide NextTurn, Advance, Settled;
    if n < m {
      OutcomeStands(c, draws, env, n, m - 1);
      var j := Drive(c, draws, env, m - 1);
      SettledStays(c, draws, j.env, j.progress);
    }
  }

  lemma SettledStays(c: ClientConfig, draws: seq<nat>, env: Around, p: Progress)
    requires Settled(p.phase)
    ensures var t := NextTurn(draws, env, p.phase); t.env == env && Advance(c, p, t.ev) == p
  {
  }

  lemma DriveOn(c: ClientConfig, draws: seq<nat>, env: Around, n: nat)
    ensures
      var j := Drive(c, draws, env, n);
      var t := NextTurn(draws, j.env, j.progress.phase);
      Drive(c, draws, env, n + 1) == Joint(Advance(c, j.progress, t.ev), t.env, j.evs + [t.ev])
  {
  }

  lemma DriveStart(c: ClientConfig, draws: seq<nat>, env: Around)
    ensures Drive(c, draws, env, 0) == Joint(Progress(Opening(0), [], 0), env, [])
  {
  }

  /** A turn in which nothing goes out and nothing comes in: a draw, or the end of the
      loop for message 1. */
  lemma QuietTurn(c: ClientConfig, draws: seq<nat>, env: Around, n: nat)
    ensures
      var j, j' := Drive(c, draws, env, n), Drive(c, draws, env, n + 1);
      var ph := j.progress.phase;
      && (ph.Opening? && ph.attempt < |draws| ==>
            && j'.progress.phase == (if ph.attempt < MAX_HANDSHAKE_ATTEMPTS then SendHs1(ph.attempt, draws[ph.attempt], 0, None)
                                     else Failed)
            && j'.progress.sent == j.progress.sent && j'.env == j.env)
      && (ph == Opening(MAX_HANDSHAKE_ATTEMPTS) ==>
            j'.progress.phase == Failed && j'.progress.sent == j.progress.sent && j'.env == j.env)
      && (ph.SendHs1? && ph.tries >= MAX_HS_TRIES ==>
            j'.progress.phase == Opening(ph.attempt + 1) && j'.progress.sent == j.progress.sent && j'.env == j.env)
  {
    hide Drive, Listen;
    DriveOn(c, draws, env, n);
  }

  // ---- What the two waits amount to -------------------------------------------------

  datatype WaitEnd = Ready | Silence | SocketError

  datatype Waited = Waited(end: WaitEnd, ch: Channel, env: Around)

  /** Whether an arrival is the server's and opens. */
  predicate Rings(ch: Channel, a: Arrival) {
    a.fromServer && a.what.Some? && Opened(ch, a.what.value).Some?
  }

  function AfterArrival(ch: Channel, a: Arrival): Channel {
    if a.fromServer && a.what.Some? then AfterOpen(ch, a.what.value) else ch
  }

  /** The wait for the ready record, one arrival after the other: it goes on until one
      opens, the deadline has come, or the socket fails. */
  function Waits(ch: Channel, env: Around, deadline: nat): Waited
    requires env.now <= deadline
    decreases |env.inbox|
  {
    if env.inbox == [] || env.inbox[0].at > deadline then Waited(Silence, ch, env.(now := deadline))
    else
      var next := env.inbox[0];
      var env' := Around(if env.now < next.at then next.at else env.now, env.inbox[1..], env.refusals);
      if next.what.None? then Waited(SocketError, ch, env')
      else if Rings(ch, next) then Waited(Ready, AfterArrival(ch, next), env')
      else Waits(AfterArrival(ch, next), env', deadline)
  }

  lemma {:induction false} WaitsByListening(ch: Channel, env: Around, deadline: nat)
    requires env.now <= deadline
    ensures
      var r := Listen(env, deadline);
      Waits(ch, env, deadline)
      == match r.what
         case TimedOut => Waited(Silence, ch, r.env)
         case Broken => Waited(SocketError, ch, r.env)
         case Got(d) =>
           if Opened(ch, d).Some? then Waited(Ready, AfterOpen(ch, d), r.env)
           else Waits(AfterOpen(ch, d), r.env, deadline)
    decreases |env.inbox|
  {
    hide Opened, AfterOpen;
    if env.inbox != [] && env.inbox[0].at <= deadline {
      var next := env.inbox[0];
      if next.what.Some? && !next.fromServer {
        WaitsByListening(ch, Around(if env.now < next.at then next.at else env.now, env.inbox[1..], env.refusals), deadline);
      }
    }
  }

  /** The machine's wait is that wait. */
  lemma {:induction false} WaitIsExact(c: ClientConfig, draws: seq<nat>, env: Around, n: nat) returns (m: nat)
    requires Drive(c, draws, env, n).progress.phase.AwaitReady?
    ensures
      var j, j' := Drive(c, draws, env, n), Drive(c, draws, env, m);
      var ph := j.progress.phase;
      var w := Waits(ph.channel, j.env, j.env.now + ph.left);
      && n < m && j'.env == w.env
      && j'.progress.phase == (if w.end.Ready? then Connected(ph.seed, w.ch)
                               else ResendHs3(ph.attempt, ph.seed, ph.msg3, ph.round, w.ch))
    decreases |Drive(c, draws, env, n).env.inbox|
  {
    hide Drive, Listen, Waits, Opened, AfterOpen;
    var j := Drive(c, draws, env, n);
    var ph := j.progress.phase;
    var deadline := j.env.now + ph.left;
    WaitsByListening(ph.channel, j.env, deadline);
    var taken := ListenTakes(j.env, deadline);
    DriveOn(c, draws, env, n);
    m := n + 1;
    var r := Listen(j.env, deadline);
    if r.what.Got? && Opened(ph.channel, r.what.d).None? {
      NoticedNothing();
      assert taken != [];
      m := WaitIsExact(c, draws, env, n + 1);
    }
  }

  /** What the channel has heard of the arrivals. */
  function HeardBy(ch: Channel, arrivals: seq<Arrival>): Channel
    decreases |arrivals|
  {
    if arrivals == [] then ch else HeardBy(AfterArrival(ch, arrivals[0]), arrivals[1..])
  }

  /** The first `k` arrivals are in time, are no errors, and none of them opens. */
  predicate QuietFor(ch: Channel, inbox: seq<Arrival>, k: nat, deadline: nat) {
    && k <= |inbox|
    && forall i | 0 <= i < k ::
         inbox[i].at <= deadline && inbox[i].what.Some? && !Rings(HeardBy(ch, inbox[..i]), inbox[i])
  }

  lemma QuietTail(ch: Channel, inbox: seq<Arrival>, k: nat, deadline: nat)
    requires k > 0 && QuietFor(ch, inbox, k, deadline)
    ensures inbox[0].at <= deadline && inbox[0].what.Some? && !Rings(ch, inbox[0])
    ensures QuietFor(AfterArrival(ch, inbox[0]), inbox[1..], k - 1, deadline)
    ensures HeardBy(ch, inbox[..k]) == HeardBy(AfterArrival(ch, inbox[0]), inbox[1..][..k - 1])
  {
    hide Rings, AfterArrival;
    assert inbox[..0] == [] && HeardBy(ch, []) == ch;
    assert inbox[..k][1..] == inbox[1..][..k - 1];
    var ch', rest := AfterArrival(ch, inbox[0]), inbox[1..];
    forall i | 0 <= i < k - 1 ensures !Rings(HeardBy(ch', rest[..i]), rest[i]) {
      assert inbox[..i + 1][1..] == rest[..i] && rest[i] == inbox[i + 1];
      assert HeardBy(ch, inbox[..i + 1]) == HeardBy(ch', rest[..i]);
    }
  }

  /** Any datagrams, from the server or not, before the one that opens: the wait ends
      with it, as long as all are in time. */
  lemma {:induction false} WaitsForRing(ch: Channel, env: Around, deadline: nat, k: nat)
    requires env.now <= deadline && QuietFor(ch, env.inbox, k, deadline)
    requires k < |env.inbox| && env.inbox[k].at <= deadline && Rings(HeardBy(ch, env.inbox[..k]), env.inbox[k])
    ensures
      var w := Waits(ch, env, deadline);
      && w.end == Ready && w.env.inbox == env.inbox[k + 1..]
      && w.ch == AfterArrival(HeardBy(ch, env.inbox[..k]), env.inbox[k])
    decreases k
  {
    assert env.inbox[k].what.Some?;
    hide Rings, AfterArrival, QuietFor;
    if k == 0 {
      assert env.inbox[..0] == [] && HeardBy(ch, []) == ch;
    } else {
      QuietTail(ch, env.inbox, k, deadline);
      var next := env.inbox[0];
      WaitsForRing(AfterArrival(ch, next),
                   Around(if env.now < next.at then next.at else env.now, env.inbox[1..], env.refusals), deadline, k - 1);
      assert env.inbox[1..][k..] == env.inbox[k + 1..];
    }
  }

  /** And if none opens, it lasts until the deadline, to the millisecond. */
  lemma {:induction false} WaitsOutSilence(ch: Channel, env: Around, deadline: nat, k: nat)
    requires env.now <= deadline && QuietFor(ch, env.inbox, k, deadline)
    requires k == |env.inbox| || env.inbox[k].at > deadline
    ensures
      Waits(ch, env, deadline)
      == Waited(Silence, HeardBy(ch, env.inbox[..k]), Around(deadline, env.inbox[k..], env.refusals))
    decreases k
  {
    assert k <= |env.inbox|;
    hide Rings, AfterArrival, QuietFor;
    if k == 0 {
      assert env.inbox[..0] == [] && env.inbox[0..] == env.inbox && HeardBy(ch, []) == ch;
    } else {
      QuietTail(ch, env.inbox, k, deadline);
      var next := env.inbox[0];
      WaitsOutSilence(AfterArrival(ch, next),
                      Around(if env.now < next.at then next.at else env.now, env.inbox[1..], env.refusals), deadline, k - 1);
      assert env.inbox[1..][k - 1..] == env.inbox[k..];
    }
  }

  /** So strays cannot keep a client from connecting: if a record that opens is among
      what arrives before the deadline, and the socket does not fail before it, the
      client is connected. */
  lemma ReadyIsHeard(c: ClientConfig, draws: seq<nat>, env: Around, n: nat, k: nat) returns (m: nat)
    requires Drive(c, draws, env, n).progress.phase.AwaitReady?
    requires
      var j := Drive(c, draws, env, n);
      var ch, deadline := j.progress.phase.channel, j.env.now + j.progress.phase.left;
      && QuietFor(ch, j.env.inbox, k, deadline) && k < |j.env.inbox|
      && j.env.inbox[k].at <= deadline && Rings(HeardBy(ch, j.env.inbox[..k]), j.env.inbox[k])
    ensures n < m && Drive(c, draws, env, m).progress.phase.Connected?
    ensures Drive(c, draws, env, m).progress.phase.seed == Drive(c, draws, env, n).progress.phase.seed
  {
    hide Drive, Waits, QuietFor, Rings, HeardBy;
    var j := Drive(c, draws, env, n);
    m := WaitIsExact(c, draws, env, n);
    WaitsForRing(j.progress.phase.channel, j.env, j.env.now + j.progress.phase.left, k);
  }

  /** Nor end its wait early: if nothing opens, it waits to the deadline, and then
      sends its third message again. */
  lemma SilenceIsWaitedOut(c: ClientConfig, draws: seq<nat>, env: Around, n: nat, k: nat) returns (m: nat)
    requires Drive(c, draws, env, n).progress.phase.AwaitReady?
    requires
      var j := Drive(c, draws, env, n);
      var ch, deadline := j.progress.phase.channel, j.env.now + j.progress.phase.left;
      QuietFor(ch, j.env.inbox, k, deadline) && (k == |j.env.inbox| || j.env.inbox[k].at > deadline)
    ensures
      var j, j' := Drive(c, draws, env, n), Drive(c, draws, env, m);
      var ph := j.progress.phase;
      && n < m && j'.env.now == j.env.now + ph.left && j'.env.inbox == j.env.inbox[k..]
      && j'.progress.phase == ResendHs3(ph.attempt, ph.seed, ph.msg3, ph.round, HeardBy(ph.channel, j.env.inbox[..k]))
  {
    hide Drive, Waits, QuietFor, HeardBy;
    var j := Drive(c, draws, env, n);
    m := WaitIsExact(c, draws, env, n);
    WaitsOutSilence(j.progress.phase.channel, j.env, j.env.now + j.progress.phase.left, k);
  }

  /** While it waits for message 2, anything but a second message costs the client the
      rest of this try and nothing else; the next try carries the last cookie it was
      sent, or the one it had. */
  lemma StrayCostsOneTry(c: ClientConfig, ph: Phase, d: Dgram, after: nat)
    requires ph.AwaitMsg2? && after <= ph.left && !d.Hs2? && ph.tries < MAX_HS_TRIES
    ensures
      var next := ClientStep(c, ClientStep(c, ph, Receive(d, after)).phase, Go(true));
      var cookie := if d.CookieMsg? && d.challenge.Some? then d.challenge else ph.cookie;
      && next.sent == Some(Hs1(Msg1(Honest(ph.seed)), cookie))
      && next.phase == AwaitMsg2(ph.attempt, ph.seed, ph.tries + 1, cookie, RETRANSMIT_INTERVAL)
  {
  }

  /** And so does silence. */
  lemma SilenceCostsOneTry(c: ClientConfig, ph: Phase)
    requires ph.AwaitMsg2? && ph.tries < MAX_HS_TRIES
    ensures
      var next := ClientStep(c, ClientStep(c, ph, Expire).phase, Go(true));
      && next.sent == Some(Hs1(Msg1(Honest(ph.seed)), ph.cookie))
      && next.phase == ph.(tries := ph.tries + 1, left := RETRANSMIT_INTERVAL)
  {
  }

  /** A second message for this very exchange is answered with the third, which carries
      the client's key and seed; any other ends the attempt. */
  lemma SecondMessageDecides(c: ClientConfig, ph: Phase, m: Msg2, after: nat)
    requires ph.AwaitMsg2? && after <= ph.left
    ensures
      var ph' := ClientStep(c, ph, Receive(Hs2(m), after)).phase;
      if m.Msg2? && m.initiator == Honest(ph.seed) then
        ClientStep(c, ph', Go(true)).sent
        == Some(Hs3(Msg3(Honest(ph.seed), m.responder, c.key, Some(Honest(ph.seed)))))
      else ph' == Opening(ph.attempt + 1)
  {
  }

  /** What is sent again while waiting for the ready record is the third message. */
  lemma ResendsTheSame(c: ClientConfig, ph: Phase)
    requires ph.AwaitReady? && ph.round < MAX_RESENDS
    ensures
      var next := ClientStep(c, ClientStep(c, ph, Expire).phase, Go(true));
      && next.sent == Some(Hs3(ph.msg3))
      && next.phase == ph.(round := ph.round + 1, left := RESEND_WAIT)
  {
  }

  /** A refused first send of a message, or an error while waiting for message 2, ends
      the handshake; a refused resend costs nothing but the datagram. */
  lemma FailuresOfTheSocket(c: ClientConfig, ph: Phase, after: nat)
    ensures (ph.SendHs1? && ph.tries < MAX_HS_TRIES) || ph.SendHs3? ==> ClientStep(c, ph, Go(false)) == Quiet(Failed, 0)
    ensures ph.AwaitMsg2? && after <= ph.left ==> ClientStep(c, ph, RecvError(after)) == Quiet(Failed, after)
    ensures
      ph.ResendHs3? && ph.round < MAX_RESENDS ==>
        ClientStep(c, ph, Go(false)) == ClientStep(c, ph, Go(true)).(sent := None)
  {
  }

  // ---- A server that stays silent -----------------------------------------------------

  /** Other sources may send what they like. */
  predicate OnlyStrays(env: Around) {
    env.refusals == [] && forall i | 0 <= i < |env.inbox| :: !env.inbox[i].fromServer && env.inbox[i].what.Some?
  }

  lemma {:induction false} StraysUnnoticed(arrivals: seq<Arrival>)
    requires forall i | 0 <= i < |arrivals| :: !arrivals[i].fromServer && arrivals[i].what.Some?
    ensures Noticed(arrivals) == []
  {
    if arrivals != [] {
      StraysUnnoticed(arrivals[1..]);
    }
  }

  lemma ListensInVain(env: Around, deadline: nat)
    requires OnlyStrays(env) && env.now <= deadline
    ensures
      var r := Listen(env, deadline);
      r.what == TimedOut && r.env.now == deadline && OnlyStrays(r.env)
  {
    hide Listen, Noticed;
    var taken := ListenTakes(env, deadline);
    var rest := Listen(env, deadline).env.inbox;
    assert forall i | 0 <= i < |taken| :: taken[i] == env.inbox[i];
    assert forall i | 0 <= i < |rest| :: rest[i] == env.inbox[|taken| + i];
    StraysUnnoticed(taken);
  }

  function Hellos(s: nat, k: nat): seq<Dgram> {
    seq(k, _ => Hs1(Msg1(Honest(s)), None))
  }

  lemma HellosMore(s: nat, k: nat)
    ensures Hellos(s, k + 1) == Hellos(s, k) + [Hs1(Msg1(Honest(s)), None)]
  {
  }

  lemma {:induction false} SilentTries(c: ClientConfig, draws: seq<nat>, env: Around, n0: nat, t: nat) returns (n: nat)
    requires t <= MAX_HS_TRIES && OnlyStrays(Drive(c, draws, env, n0).env)
    requires
      var ph := Drive(c, draws, env, n0).progress.phase;
      ph.SendHs1? && ph.tries == 0 && ph.cookie == None
    ensures
      var j, j' := Drive(c, draws, env, n0), Drive(c, draws, env, n);
      && j'.progress.phase == SendHs1(j.progress.phase.attempt, j.progress.phase.seed, t, None) && OnlyStrays(j'.env)
      && j'.progress.sent == j.progress.sent + Hellos(j.progress.phase.seed, t)
      && j'.env.now == j.env.now + 250 * t
    decreases t
  {
    hide Drive, Listen, OnlyStrays, Hellos;
    var j := Drive(c, draws, env, n0);
    n := n0;
    if t == 0 {
      assert Hellos(j.progress.phase.seed, 0) == [] by { NoHellos(j.progress.phase.seed); }
    } else {
      n := SilentTries(c, draws, env, n0, t - 1);
      var j1 := Drive(c, draws, env, n);
      DriveOn(c, draws, env, n);
      SendsFreely(j1.env);
      var j2 := Drive(c, draws, env, n + 1);
      DriveOn(c, draws, env, n + 1);
      ListensInVain(j2.env, j2.env.now + RETRANSMIT_INTERVAL);
      HellosMore(j.progress.phase.seed, t - 1);
      n := n + 2;
    }
  }

  lemma NoHellos(s: nat)
    ensures Hellos(s, 0) == []
  {
  }

  lemma SendsFreely(env: Around)
    requires OnlyStrays(env)
    ensures SendSucceeds(env) && AfterSend(env) == env
  {
  }

  /** The first `a` attempts: twelve first messages each, with a seed of its own. */
  function AllHellos(draws: seq<nat>, a: nat): seq<Dgram>
    requires a <= |draws|
  {
    if a == 0 then [] else AllHellos(draws, a - 1) + Hellos(draws[a - 1], 12)
  }

  lemma {:induction false} SilentAttempts(c: ClientConfig, draws: seq<nat>, env: Around, a: nat) returns (n: nat)
    requires a <= MAX_HANDSHAKE_ATTEMPTS && a <= |draws| && OnlyStrays(env)
    ensures
      var j := Drive(c, draws, env, n);
      && j.progress.phase == Opening(a) && OnlyStrays(j.env)
      && j.progress.sent == AllHellos(draws, a) && j.env.now == env.now + 3000 * a
  {
    hide Drive, OnlyStrays, Hellos;
    n := 0;
    if a == 0 {
      DriveStart(c, draws, env);
    } else {
      n := SilentAttempts(c, draws, env, a - 1);
      QuietTurn(c, draws, env, n);
      n := SilentTries(c, draws, env, n + 1, MAX_HS_TRIES);
      QuietTurn(c, draws, env, n);
      n := n + 1;
    }
  }

  lemma ThreeAttempts(draws: seq<nat>)
    requires |draws| == 3
    ensures AllHellos(draws, 3) == Hellos(draws[0], 12) + Hellos(draws[1], 12) + Hellos(draws[2], 12)
  {
    hide Hellos;
    var a: nat := 3;
    assert AllHellos(draws, a) == AllHellos(draws, a - 1) + Hellos(draws[a - 1], 12);
    assert AllHellos(draws, a - 1) == AllHellos(draws, a - 2) + Hellos(draws[a - 2], 12);
    assert AllHellos(draws, a - 2) == [] + Hellos(draws[0], 12);
  }

  /** If nothing comes from the server, whatever comes from elsewhere, the client sends
      exactly 36 first messages, twelve to a seed and none with a cookie, and gives up
      after 9 s. */
  lemma SilentServer(c: ClientConfig, draws: seq<nat>, env: Around) returns (n: nat)
    requires |draws| == 3 && OnlyStrays(env)
    ensures
      var j := Drive(c, draws, env, n);
      && j.progress.phase == Failed && j.env.now == env.now + 9000
      && j.progress.sent == Hellos(draws[0], 12) + Hellos(draws[1], 12) + Hellos(draws[2], 12)
  {
    hide Drive, Hellos, OnlyStrays, AllHellos;
    n := SilentAttempts(c, draws, env, 3);
    ThreeAttempts(draws);
    QuietTurn(c, draws, env, n);
    n := n + 1;
  }

  // ---- The loops of the source -----------------------------------------------

  /** The socket object; `sent` is the log of the sends that were not refused. */
  class Socket {
    var now: nat
    var inbox: seq<Arrival>
    var refusals: seq<bool>
    var sent: seq<Dgram>

    function Contents(): Around
      reads this
    {
      Around(now, inbox, refusals)
    }

    method SendTo(d: Dgram) returns (ok: bool)
      modifies this
      ensures ok == SendSucceeds(old(Contents())) && Contents() == AfterSend(old(Contents()))
      ensures sent == if ok then old(sent) + [d] else old(sent)
    {
      ok := refusals == [] || !refusals[0];
      if refusals != [] {
        refusals := refusals[1..];
      }
      if ok {
        sent := sent + [d];
      }
    }

    /** `recv_from_server` under a timeout. */
    method RecvFromServer(deadline: nat) returns (r: Received)
      requires now <= deadline
      modifies this
      ensures Listening(Contents(), r) == Listen(old(Contents()), deadline)
      ensures sent == old(sent)
      ensures r.TimedOut? || |inbox| < |old(inbox)|
    {
      while true
        invariant now <= deadline && sent == old(sent) && |inbox| <= |old(inbox)|
        invariant Listen(Contents(), deadline) == Listen(old(Contents()), deadline)
        decreases |inbox|
      {
        if inbox == [] || inbox[0].at > deadline {
          now := deadline;
          return TimedOut;
        }
        var next := inbox[0];
        inbox := inbox[1..];
        if now < next.at {
          now := next.at;
        }
        match next.what {
          case None => return Broken;
          case Some(d) =>
            if next.fromServer {
              return Got(d);
            }
        }
      }
    }
  }

  /** The socket is where the driven machine is after `n` turns. */
  ghost predicate InStep(c: ClientConfig, draws: seq<nat>, sock: Socket, env: Around, n: nat, ph: Phase)
    reads sock
  {
    var j := Drive(c, draws, env, n);
    j.progress.phase == ph && j.progress.sent == sock.sent && j.env == sock.Contents()
  }

  /** Wait up to `limit` for a datagram that opens on the channel. */
  method WaitReady(c: ClientConfig, sock: Socket, limit: nat, a: nat, s: nat, m: Msg3, round: nat, channel: Channel,
                   ghost draws: seq<nat>, ghost env: Around, ghost n0: nat)
    returns (ready: bool, ch: Channel, ghost n: nat)
    requires InStep(c, draws, sock, env, n0, AwaitReady(a, s, m, round, channel, limit))
    modifies sock
    ensures InStep(c, draws, sock, env, n, if ready then Connected(s, ch) else ResendHs3(a, s, m, round, ch))
    ensures
      var w := Waits(channel, old(sock.Contents()), old(sock.now) + limit);
      (ready <==> w.end.Ready?) && ch == w.ch && sock.Contents() == w.env
  {
    hide Drive, Listen, Waits;
    ch, n := channel, n0;
    var deadline := sock.now + limit;
    while true
      invariant sock.now <= deadline
      invariant Waits(ch, sock.Contents(), deadline) == Waits(channel, old(sock.Contents()), deadline)
      invariant InStep(c, draws, sock, env, n, AwaitReady(a, s, m, round, ch, deadline - sock.now))
      decreases |sock.inbox|
    {
      DriveOn(c, draws, env, n);
      WaitsByListening(ch, sock.Contents(), deadline);
      var got := sock.RecvFromServer(deadline);
      n := n + 1;
      match got {
        case TimedOut => return false, ch, n;
        case Broken => return false, ch, n;
        case Got(d) =>
          var channelObject := new DataChannel(ch);
          var plain := channelObject.OpenDatagram(d);
          ch := channelObject.Value();
          if plain.value.Some? {
            return true, ch, n;
          }
      }
    }
  }

  /** One try: send message 1 and wait for an answer to it. */
  method SendMsg1(c: ClientConfig, sock: Socket, a: nat, s: nat, t: nat, cookie: Option<Cookie>,
                  ghost draws: seq<nat>, ghost env: Around, ghost n0: nat)
    returns (got: Received, ghost n: nat)
    requires t < MAX_HS_TRIES && InStep(c, draws, sock, env, n0, SendHs1(a, s, t, cookie))
    modifies sock
    ensures
      match got
      case TimedOut => InStep(c, draws, sock, env, n, SendHs1(a, s, t + 1, cookie))
      case Broken => InStep(c, draws, sock, env, n, Failed)
      case Got(d) => InStep(c, draws, sock, env, n, OnAnswer(c, AwaitMsg2(a, s, t + 1, cookie, 0), d, 0).phase)
  {
    hide Drive, Listen;
    DriveOn(c, draws, env, n0);
    var ok := sock.SendTo(Hs1(Msg1(Honest(s)), cookie));
    n := n0 + 1;
    if !ok {
      return Broken, n;
    }
    DriveOn(c, draws, env, n);
    got := sock.RecvFromServer(sock.now + RETRANSMIT_INTERVAL);
    n := n + 1;
  }

  /** The retransmission loop for message 1. */
  method GetMsg2(c: ClientConfig, sock: Socket, a: nat, s: nat, ghost draws: seq<nat>, ghost env: Around, ghost n0: nat)
    returns (broken: bool, msg2: Option<Msg2>, ghost n: nat)
    requires InStep(c, draws, sock, env, n0, SendHs1(a, s, 0, None))
    modifies sock
    ensures
      if broken then InStep(c, draws, sock, env, n, Failed)
      else if msg2.Some? && msg2.value.Msg2? && msg2.value.initiator == Honest(s) then
        InStep(c, draws, sock, env, n, SendHs3(a, s, Msg3(Honest(s), msg2.value.responder, c.key, Some(Honest(s)))))
      else InStep(c, draws, sock, env, n, Opening(a + 1))
  {
    hide Drive;
    n := n0;
    var cookie: Option<Cookie> := None;
    for t := 0 to MAX_HS_TRIES
      invariant InStep(c, draws, sock, env, n, SendHs1(a, s, t, cookie))
    {
      hide InStep;
      var got;
      got, n := SendMsg1(c, sock, a, s, t, cookie, draws, env, n);
      match got {
        case TimedOut =>
        case Broken => return true, None, n;
        case Got(d) =>
          if d.Hs2? {
            return false, Some(d.msg2), n;
          }
          if d.CookieMsg? && d.challenge.Some? {
            cookie := d.challenge;
          }
      }
    }
    QuietTurn(c, draws, env, n);
    return false, None, n + 1;
  }

  /** After message 3 went out: wait, then resend and wait three times more. */
  method ConfirmReady(c: ClientConfig, sock: Socket, a: nat, s: nat, m: Msg3,
                      ghost draws: seq<nat>, ghost env: Around, ghost n0: nat)
    returns (ready: bool, ch: Channel, ghost n: nat)
    requires InStep(c, draws, sock, env, n0,
                    AwaitReady(a, s, m, 0, ClientChannel(Honest(s), c.window), READY_WAIT_TIMEOUT))
    modifies sock
    ensures InStep(c, draws, sock, env, n, if ready then Connected(s, ch) else Opening(a + 1))
  {
    hide Drive;
    ch := ClientChannel(Honest(s), c.window);
    ready, ch, n := WaitReady(c, sock, READY_WAIT_TIMEOUT, a, s, m, 0, ch, draws, env, n0);
    if ready {
      return;
    }
    for round := 0 to MAX_RESENDS
      invariant InStep(c, draws, sock, env, n, ResendHs3(a, s, m, round, ch))
    {
      DriveOn(c, draws, env, n);
      var ok := sock.SendTo(Hs3(m));
      ready, ch, n := WaitReady(c, sock, RESEND_WAIT, a, s, m, round + 1, ch, draws, env, n + 1);
      if ready {
        return;
      }
    }
    DriveOn(c, draws, env, n);
    ready, n := false, n + 1;
  }

  /** One attempt with a fresh seed: broken off, connected, or to be followed by another. */
  method Attempt(c: ClientConfig, sock: Socket, a: nat, s: nat, ghost draws: seq<nat>, ghost env: Around, ghost n0: nat)
    returns (broken: bool, connected: Option<Channel>, ghost n: nat)
    requires a < MAX_HANDSHAKE_ATTEMPTS && a < |draws| && draws[a] == s
    requires InStep(c, draws, sock, env, n0, Opening(a))
    modifies sock
    ensures InStep(c, draws, sock, env, n,
                   if broken then Failed
                   else if connected.Some? then Connected(s, connected.value)
                   else Opening(a + 1))
  {
    hide Drive;
    QuietTurn(c, draws, env, n0);
    var msg2;
    broken, msg2, n := GetMsg2(c, sock, a, s, draws, env, n0 + 1);
    if broken || msg2.None? || !msg2.value.Msg2? || msg2.value.initiator != Honest(s) {
      return broken, None, n;
    }
    var msg3 := Msg3(Honest(s), msg2.value.responder, c.key, Some(Honest(s)));
    DriveOn(c, draws, env, n);
    var ok := sock.SendTo(Hs3(msg3));
    n := n + 1;
    if !ok {
      return true, None, n;
    }
    var ready, channel;
    ready, channel, n := ConfirmReady(c, sock, a, s, msg3, draws, env, n);
    return false, if ready then Some(channel) else None, n;
  }

  /** `client_udp_handshake`. It ends, whatever the inbox holds, within the budget;
      it has done what the machine does on some events; and those events report
      exactly what it took out of the inbox, in order. */
  method ClientUdpHandshake(c: ClientConfig, sock: Socket, draws: seq<nat>)
    returns (r: Result<Channel, string>, ghost n: nat, ghost evs: seq<ClientEvent>)
    requires |draws| == MAX_HANDSHAKE_ATTEMPTS && sock.sent == []
    modifies sock
    ensures |sock.sent| <= 48
    ensures old(sock.now) <= sock.now <= old(sock.now) + 19500
    ensures evs == Drive(c, draws, old(sock.Contents()), n).evs
    ensures sock.Contents() == Drive(c, draws, old(sock.Contents()), n).env
    ensures Took(old(sock.inbox), sock.inbox, evs)
    ensures sock.sent == RunClient(c, evs).sent
    ensures
      match r
      case Ok(channel) => RunClient(c, evs).phase.Connected? && RunClient(c, evs).phase.channel == channel
                          && RunClient(c, evs).phase.seed in draws
      case Err(_) => RunClient(c, evs).phase == Failed
  {
    hide Drive, RunClient, Took, Reports, Noticed;
    ghost var env := sock.Contents();
    n := 0;
    DriveStart(c, draws, env);
    for a := 0 to MAX_HANDSHAKE_ATTEMPTS
      invariant InStep(c, draws, sock, env, n, Opening(a))
    {
      var broken, connected;
      broken, connected, n := Attempt(c, sock, a, draws[a], draws, env, n);
      DriveEnds(c, draws, env, n);
      if broken {
        return Err("io"), n, Drive(c, draws, env, n).evs;
      }
      if connected.Some? {
        assert draws[a] in draws;
        return Ok(connected.value), n, Drive(c, draws, env, n).evs;
      }
    }
    QuietTurn(c, draws, env, n);
    DriveEnds(c, draws, env, n + 1);
    return Err("handshake exhausted all attempts"), n + 1, Drive(c, draws, env, n + 1).evs;
  }

  lemma DriveEnds(c: ClientConfig, draws: seq<nat>, env: Around, n: nat)
    ensures
      var j := Drive(c, draws, env, n);
      && j.progress == RunClient(c, j.evs)
      && Took(env.inbox, j.env.inbox, j.evs)
      && |j.progress.sent| <= 48
      && env.now <= j.env.now <= env.now + 19500
  {
    hide Drive, RunClient, Took;
    DriveIsRun(c, draws, env, n);
    HandshakeBudget(c, Drive(c, draws, env, n).evs);
  }
}
