/** What can and what cannot disturb an established peer. */
module Stability {
  import opened Common
  import opened Wire
  import opened DataPlane
  import opened PeerTable
  import opened TableInvariant
  import Sweeping

  /** The event is a third handshake message that completes for `a`. */
  predicate CompletesFor(p: Policy, s: Server, ev: ServerEvent, a: Addr) {
    ev.Arrive? && ev.src == a && ev.d.Hs3? && Completes(p, s, a, ev.d.msg3)
  }

  /** When `a` was last heard from, this datagram included. */
  function LastHeard(s: Server, ev: ServerEvent, a: Addr): nat
    requires ev.Arrive? && a in s.peers
  {
    if ev.src == a && ev.d.Data? then s.clock + ev.before else s.peers[a].lastSeen
  }

  /** The clean-up of this event drops `a` for having been idle too long. */
  predicate IdleSwept(p: Policy, s: Server, ev: ServerEvent, a: Addr)
    requires a in s.peers
  {
    && ReachesCleanUp(p, s, ev)
    && s.clock + ev.before + ev.after - LastHeard(s, ev, a) >= 120000
  }

  lemma Hs3Peer(p: Policy, s: Server, src: Addr, m: Msg3, now: nat, a: Addr)
    requires a in s.peers && !(src == a && Completes(p, s, a, m))
    ensures a in OnHs3(p, s, src, m, now).server.peers && OnHs3(p, s, src, m, now).server.peers[a] == s.peers[a]
  {
    hide NewConn, Sealed;
  }

  lemma DataPeer(p: Policy, s: Server, src: Addr, d: Dgram, now: nat, a: Addr)
    requires PeersOk(s) && a in s.peers
    ensures
      var s' := OnData(p, s, src, d, now).server;
      a in s'.peers && s'.peers[a] == Peer(s.peers[a].conn, if src == a then now else s.peers[a].lastSeen)
  {
    hide AfterData, Opened;
  }

  lemma RoutePeer(p: Policy, s: Server, ev: ServerEvent, a: Addr)
    requires TableInv(p, s) && a in s.peers && ev.Arrive? && !CompletesFor(p, s, ev, a)
    ensures
      var out := Route(p, s, ev.src, ev.d, ev.load, s.clock + ev.before);
      a in out.server.peers && out.server.peers[a] == Peer(s.peers[a].conn, LastHeard(s, ev, a))
  {
    hide OnHs1, OnHs3, OnData;
    var now := s.clock + ev.before;
    match ev.d
    case Hs1Malformed => Hs1Effect(s, ev.src, ev.d, ev.load, now);
    case Hs1(_, _) => Hs1Effect(s, ev.src, ev.d, ev.load, now);
    case Hs3(m) => Hs3Peer(p, s, ev.src, m, now, a);
    case Data(_) => DataPeer(p, s, ev.src, ev.d, now, a);
    case _ =>
  }

  /** An established entry keeps its channel through every event except a third
      message that completes for its own address and an idle sweep. */
  lemma PeerStable(p: Policy, evs: seq<ServerEvent>, ev: ServerEvent, a: Addr)
    requires a in Run(p, evs).peers
    ensures
      var s, s' := Run(p, evs), Step(p, Run(p, evs), ev).server;
      !CompletesFor(p, s, ev, a) ==>
        if IdleSwept(p, s, ev, a) then a !in s'.peers
        else a in s'.peers && s'.peers[a].conn == s.peers[a].conn
  {
    var s := Run(p, evs);
    RunKeeps(p, evs);
    Sweeping.CleanUpReachedIff(p, s, ev);
    hide Run, Route, TableInv, ReachesCleanUp;
    if ev.Arrive? && !CompletesFor(p, s, ev, a) {
      RoutePeer(p, s, ev, a);
    }
  }

  /** And a completing third message does replace it, with a connection made
      from that message. */
  lemma CompletionReplaces(p: Policy, s: Server, ev: ServerEvent, a: Addr)
    requires CompletesFor(p, s, ev, a)
    ensures
      var s' := Step(p, s, ev).server;
      && |s'.conns| == |s.conns| + 1
      && s'.conns[|s.conns|] == NewConn(p, a, ev.d.msg3)
      && (ev.after < PEER_IDLE_TIMEOUT ==> a in s'.peers && s'.peers[a].conn == |s.conns|)
  {
  }

  // ---- Which third message completes ----------------------------------------

  /** The last Hs2 the run sent to `a`. */
  function LastHs2(p: Policy, evs: seq<ServerEvent>, a: Addr): Option<Msg2> {
    if evs == [] then None
    else
      var out := Step(p, Run(p, evs[..|evs| - 1]), evs[|evs| - 1]);
      if AnswersHs2(out, a) then Some(out.sent.value.dgram.msg2) else LastHs2(p, evs[..|evs| - 1], a)
  }

  lemma {:induction false} PendingIsLatest(p: Policy, evs: seq<ServerEvent>, a: Addr)
    requires a in Run(p, evs).pending
    ensures
      var r := Run(p, evs).pending[a].responder;
      LastHs2(p, evs, a) == Some(Msg2(r.initiator, r.id))
  {
    hide Step;
    assert evs != [];
    var n := |evs| - 1;
    var s := Run(p, evs[..n]);
    StepPending(p, s, evs[n], a);
    if !AnswersHs2(Step(p, s, evs[n]), a) {
      PendingIsLatest(p, evs[..n], a);
    } else {
      assert evs[n].Arrive? && Possible(s, evs[n]) by {
        OnlyArrivalsAnswer(p, s, evs[n]);
      }
    }
  }

  lemma OnlyArrivalsAnswer(p: Policy, s: Server, ev: ServerEvent)
    ensures
      var out := Step(p, s, ev);
      out.sent.Some? && !out.sent.value.dgram.Data? ==> ev.Arrive? && Possible(s, ev)
  {
  }

  /** A handshake completes only against the responder announced in the most
      recent Hs2 to that address: a third message for any earlier one fails. */
  lemma CompletesAgainstLatest(p: Policy, evs: seq<ServerEvent>, ev: ServerEvent, a: Addr)
    requires CompletesFor(p, Run(p, evs), ev, a)
    ensures LastHs2(p, evs, a) == Some(Msg2(ev.d.msg3.initiator, ev.d.msg3.responder))
  {
    PendingIsLatest(p, evs, a);
  }

  /** Each responder state completes at most once in a run, at whatever address:
      so a repeated third message never completes again. */
  lemma CompletesAtMostOnce(p: Policy, evs: seq<ServerEvent>, i: nat, j: nat, a: Addr, b: Addr)
    requires i < j < |evs|
    requires CompletesFor(p, Run(p, evs[..i]), evs[i], a)
    requires CompletesFor(p, Run(p, evs[..j]), evs[j], b)
    ensures evs[i].d.msg3.responder != evs[j].d.msg3.responder
  {
    var s := Run(p, evs[..i]);
    CompletionReplaces(p, s, evs[i], a);
    var done := Run(p, evs[..i + 1]);
    assert evs[..i + 1][..i] == evs[..i];
    assert done.conns[|s.conns|].responder == evs[i].d.msg3.responder;
    hide Step;
    assert evs[..j] == evs[..i + 1] + evs[i + 1..j];
    RunSplits(p, START, evs[..i + 1], evs[i + 1..j]);
    RunFromGrows(p, done, evs[i + 1..j]);
    RunKeeps(p, evs[..j]);
    var late := Run(p, evs[..j]);
    assert SameIdentity(done.conns[|s.conns|], late.conns[|s.conns|]);
    assert late.pending[b].responder.id != late.conns[|s.conns|].responder;
  }

  /** Old handshake traffic cannot touch an established peer: after any run, a
      first message, or a third message for a responder that already became a
      connection, leaves every peer on its channel unless its idle time is up. */
  lemma OldHandshakesHarmless(p: Policy, evs: seq<ServerEvent>, ev: ServerEvent, a: Addr, k: nat)
    requires a in Run(p, evs).peers && ev.Arrive?
    requires ev.d.Hs1? || (ev.d.Hs3? && ev.d.msg3.Msg3? && k < |Run(p, evs).conns|
                           && Run(p, evs).conns[k].responder == ev.d.msg3.responder)
    ensures
      var s, s' := Run(p, evs), Step(p, Run(p, evs), ev).server;
      IdleSwept(p, s, ev, a) || (a in s'.peers && s'.peers[a].conn == s.peers[a].conn)
  {
    RunKeeps(p, evs);
    PeerStable(p, evs, ev, a);
  }

  /** But a third message from `a` always costs `a` its half-open handshake,
      whether or not it fits it. */
  lemma ThirdMessageConsumes(p: Policy, s: Server, ev: ServerEvent, a: Addr)
    requires ev.Arrive? && ev.src == a && ev.d.Hs3?
    ensures a !in Step(p, s, ev).server.pending
  {
  }

  // ---- Half-open handshakes ---------------------------------------------------------

  /** A first message from `a` that is admitted again: `a` has its place already. */
  predicate Readmits(s: Server, ev: ServerEvent, a: Addr) {
    && ev.Arrive? && Possible(s, ev) && ev.src == a && ev.d.Hs1? && ev.d.msg1.Msg1? && |s.peers| < MAX_PEERS
    && (EffectiveLoad(s, ev.load) ==> ev.d.cookie.Some? && CookieVerifies(s.epoch, a, ev.d.cookie.value))
  }

  lemma RouteHalfOpen(p: Policy, s: Server, ev: ServerEvent, a: Addr)
    requires a in s.pending && ev.Arrive? && Possible(s, ev)
    ensures
      var now := s.clock + ev.before;
      var s' := Route(p, s, ev.src, ev.d, ev.load, now).server;
      if ev.src == a && ev.d.Hs3? then a !in s'.pending
      else if Readmits(s, ev, a) then
        && a in s'.pending && s'.pending[a].createdAt == now
        && s'.pending[a].responder == Responder(s.nextResponder, ev.d.msg1.initiator)
      else a in s'.pending && s'.pending[a] == s.pending[a]
  {
    hide AfterData, NewConn, Opened;
  }

  /** A half-open handshake lasts through every event of a run except a third message
      from its own source, which uses it up, a first message from its own source that
      is admitted, which replaces it, and a clean-up when it is 5 s old. */
  lemma HalfOpenStable(p: Policy, evs: seq<ServerEvent>, ev: ServerEvent, a: Addr)
    requires a in Run(p, evs).pending
    ensures
      var s, s' := Run(p, evs), Step(p, Run(p, evs), ev).server;
      if ev.Arrive? && ev.src == a && ev.d.Hs3? then a !in s'.pending
      else if Readmits(s, ev, a) then
        && (a in s'.pending <==> ev.after < 5000)
        && (a in s'.pending ==> s'.pending[a].responder == Responder(s.nextResponder, ev.d.msg1.initiator))
      else if ReachesCleanUp(p, s, ev) && s.clock + ev.before + ev.after - s.pending[a].createdAt >= 5000 then
        a !in s'.pending
      else a in s'.pending && s'.pending[a] == s.pending[a]
  {
    hide Run, Route, ReachesCleanUp;
    var s := Run(p, evs);
    Sweeping.CleanUpReachedIff(p, s, ev);
    if ev.Arrive? && Possible(s, ev) {
      RouteHalfOpen(p, s, ev, a);
      ReadmissionGetsThere(p, s, ev, a);
    }
  }

  lemma ReadmissionGetsThere(p: Policy, s: Server, ev: ServerEvent, a: Addr)
    requires a in s.pending
    ensures Readmits(s, ev, a) ==> ReachesCleanUp(p, s, ev)
  {
  }
}
