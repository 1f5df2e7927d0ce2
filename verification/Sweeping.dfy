/** When the clean-up runs, what it leaves, and when it cannot run. */
module Sweeping {
  import opened Wire
  import opened PeerTable
  import TableBounds

  predicate NothingStale(s: Server) {
    && (forall a | a in s.pending :: s.clock - s.pending[a].createdAt < 5000)
    && (forall a | a in s.peers :: s.clock - s.peers[a].lastSeen < 120000)
  }

  /** After any event that reaches the clean-up, nothing stale is left. */
  lemma SweptClean(p: Policy, s: Server, ev: ServerEvent)
    requires Step(p, s, ev).toEnd
    ensures NothingStale(Step(p, s, ev).server)
  {
    hide Route;
  }

  /** The datagrams that return early from a full table. */
  predicate Inert(s: Server, ev: ServerEvent) {
    && ev.Arrive?
    && (match ev.d
        case Undecodable => true
        case Hs1Malformed => true
        case Hs1(_, _) => true
        case Hs3(_) => ev.src !in s.pending
        case Data(_) => ev.src !in s.peers
        case _ => false)
  }

  /** With 1024 or more peers, handshake openings, junk and traffic from unknown
      sources never change either table, however much time goes by: idle peers
      keep their places. */
  lemma {:induction false} WedgedWhenFull(p: Policy, s: Server, evs: seq<ServerEvent>)
    requires |s.peers| >= MAX_PEERS
    requires forall i | 0 <= i < |evs| :: Inert(s, evs[i])
    ensures RunFrom(p, s, evs).pending == s.pending
    ensures RunFrom(p, s, evs).peers == s.peers
  {
    if evs != [] {
      WedgedWhenFull(p, s, evs[..|evs| - 1]);
    }
  }

  /** Exactly the datagrams of `ReachesCleanUp` reach it, whatever the tables hold. */
  lemma CleanUpReachedIff(p: Policy, s: Server, ev: ServerEvent)
    ensures Step(p, s, ev).toEnd <==> ReachesCleanUp(p, s, ev)
  {
  }

  /** The datagram itself counts as a sign of life from its source. */
  predicate Renews(p: Policy, s: Server, ev: ServerEvent) {
    ev.Arrive? && (ev.d.Data? || (ev.d.Hs3? && Completes(p, s, ev.src, ev.d.msg3)))
  }

  /** When every peer has been idle too long, an event frees their places exactly if
      it reaches the clean-up: then nobody is left but its own source, if the event
      is a sign of life that is not itself too old by then. From a full table no
      first message is among those events. */
  lemma FullTableFreedIff(p: Policy, s: Server, ev: ServerEvent)
    requires forall a | a in s.peers :: s.clock - s.peers[a].lastSeen >= PEER_IDLE_TIMEOUT
    ensures
      Step(p, s, ev).server.peers.Keys
      == if !ReachesCleanUp(p, s, ev) then s.peers.Keys
         else if Renews(p, s, ev) && ev.after < PEER_IDLE_TIMEOUT then {ev.src}
         else {}
    ensures |s.peers| >= MAX_PEERS && ReachesCleanUp(p, s, ev) ==> !ev.d.Hs1? && !ev.d.Hs1Malformed?
  {
    hide Route, Finish, Step;
    CleanUpReachedIff(p, s, ev);
    ArrivalStep(p, s, ev);
    if ev.Arrive? && Possible(s, ev) {
      var now := s.clock + ev.before;
      RoutePeers(p, s, ev);
      SweepIdle(Route(p, s, ev.src, ev.d, ev.load, now), now + ev.after, ev.src);
    }
  }

  /** Before the clean-up: a sign of life that gets there dates its source to now,
      and nothing else moves; what does not get there leaves the same sources. */
  lemma RoutePeers(p: Policy, s: Server, ev: ServerEvent)
    requires ev.Arrive? && Possible(s, ev)
    ensures
      var now := s.clock + ev.before;
      var out := Route(p, s, ev.src, ev.d, ev.load, now);
      if !out.toEnd then out.server.peers.Keys == s.peers.Keys
      else if Renews(p, s, ev) then exists c :: out.server.peers == s.peers[ev.src := Peer(c, now)]
      else out.server.peers == s.peers
  {
    hide OnHs1, OnHs3, OnData, Completes;
    var now := s.clock + ev.before;
    match ev.d
    case Hs1Malformed => Hs1Effect(s, ev.src, ev.d, ev.load, now);
    case Hs1(_, _) => Hs1Effect(s, ev.src, ev.d, ev.load, now);
    case Hs3(m) => Hs3Peers(p, s, ev.src, m, now);
    case Data(_) => DataPeers(p, s, ev.src, ev.d, now);
    case _ =>
  }

  lemma Hs3Peers(p: Policy, s: Server, src: Addr, m: Msg3, now: nat)
    ensures
      var out := OnHs3(p, s, src, m, now);
      if Completes(p, s, src, m) then out.toEnd && out.server.peers == s.peers[src := Peer(|s.conns|, now)]
      else out.server.peers == s.peers
  {
    hide NewConn;
  }

  lemma DataPeers(p: Policy, s: Server, src: Addr, d: Dgram, now: nat)
    ensures
      var out := OnData(p, s, src, d, now);
      if !out.toEnd then out.server.peers.Keys == s.peers.Keys
      else src in s.peers && out.server.peers == s.peers[src := Peer(s.peers[src].conn, now)]
  {
    hide AfterData;
  }

  /** What the clean-up leaves of a table in which everybody but `src` is idle. */
  lemma SweepIdle(out: Outcome, end: nat, src: Addr)
    requires out.toEnd ==>
               forall a | a in out.server.peers && a != src :: end - out.server.peers[a].lastSeen >= PEER_IDLE_TIMEOUT
    ensures
      Finish(out, end).server.peers.Keys
      == if !out.toEnd then out.server.peers.Keys
         else if src in out.server.peers && end - out.server.peers[src].lastSeen < PEER_IDLE_TIMEOUT then {src}
         else {}
    ensures Finish(out, end).toEnd == out.toEnd
  {
  }

  // ---- Past the limit on peers ------------------------------------------------------

  /** Nobody is idle when the clean-up of this event comes. */
  predicate NobodyIdle(s: Server, ev: ServerEvent)
    requires ev.Arrive?
  {
    && ev.after < PEER_IDLE_TIMEOUT
    && forall a | a in s.peers :: s.clock + ev.before + ev.after - s.peers[a].lastSeen < PEER_IDLE_TIMEOUT
  }

  /** An event takes the table past its limit exactly if it completes a handshake for
      a new source while the table is full and nobody in it is idle. */
  lemma LimitPassedIff(p: Policy, s: Server, ev: ServerEvent)
    requires |s.peers| <= MAX_PEERS
    ensures
      |Step(p, s, ev).server.peers| > MAX_PEERS
      <==>
      && ev.Arrive? && ev.d.Hs3? && Completes(p, s, ev.src, ev.d.msg3)
      && ev.src !in s.peers && |s.peers| == MAX_PEERS
      && NobodyIdle(s, ev)
  {
    hide Route, Step, Finish, Completes;
    ArrivalStep(p, s, ev);
    if ev.Arrive? && Possible(s, ev) {
      var now := s.clock + ev.before;
      var out := Route(p, s, ev.src, ev.d, ev.load, now);
      RoutePeers(p, s, ev);
      CompletionGetsThere(p, s, ev);
      if out.toEnd && Renews(p, s, ev) {
        SweptSize(s, out, ev.src, now, now + ev.after);
      } else {
        NobodyNew(s, out, now + ev.after);
      }
    }
  }

  lemma ArrivalStep(p: Policy, s: Server, ev: ServerEvent)
    ensures
      if ev.Arrive? && Possible(s, ev) then
        var now := s.clock + ev.before;
        Step(p, s, ev) == Finish(Route(p, s, ev.src, ev.d, ev.load, now), now + ev.after)
      else Step(p, s, ev).server.peers == s.peers
  {
    hide Route, Finish;
  }

  lemma NobodyNew(s: Server, out: Outcome, end: nat)
    requires out.server.peers.Keys == s.peers.Keys
    ensures |Finish(out, end).server.peers| <= |s.peers|
  {
    hide Finish;
    FinishEffect(out, end);
    TableBounds.SubmapSize(Finish(out, end).server.peers, s.peers);
  }

  lemma CompletionGetsThere(p: Policy, s: Server, ev: ServerEvent)
    requires ev.Arrive? && Possible(s, ev)
    ensures
      var out := Route(p, s, ev.src, ev.d, ev.load, s.clock + ev.before);
      && (ev.d.Hs3? && Completes(p, s, ev.src, ev.d.msg3) ==> out.toEnd)
      && (ev.d.Data? && out.toEnd ==> ev.src in s.peers)
  {
  }

  /** How many are left of a table in which `src` has just been heard from. */
  lemma SweptSize(s: Server, out: Outcome, src: Addr, now: nat, end: nat)
    requires out.toEnd && now <= end && |s.peers| <= MAX_PEERS
    requires exists c :: out.server.peers == s.peers[src := Peer(c, now)]
    ensures
      |Finish(out, end).server.peers| > MAX_PEERS
      <==>
      && src !in s.peers && |s.peers| == MAX_PEERS && end - now < PEER_IDLE_TIMEOUT
      && forall a | a in s.peers :: end - s.peers[a].lastSeen < PEER_IDLE_TIMEOUT
  {
    var left := Finish(out, end).server.peers;
    var keys := s.peers.Keys;
    assert |left| == |left.Keys| && |s.peers| == |keys|;
    assert left.Keys <= keys + {src};
    if src in keys || src !in left {
      TableBounds.SubsetSize(left.Keys, keys);
    } else if a :| a in keys && a !in left {
      TableBounds.SubsetSize(left.Keys, keys + {src} - {a});
    } else {
      assert left.Keys == keys + {src};
    }
  }
}
