/** Which events a peer can be sent, and how long its sealer task lives. */
module Subscriptions {
  import opened Common
  import opened Wire
  import opened DataPlane
  import opened PeerTable
  import opened TableInvariant

  // ---- Safety ---------------------------------------------------------------

  /** This event is a subscription on connection `k` that the topic check passed. */
  predicate GrantsAt(p: Policy, s: Server, ev: ServerEvent, k: nat, capability: Option<Capability>, topic: Topic) {
    && ev.Arrive? && ev.src in s.peers && s.peers[ev.src].conn == k < |s.conns|
    && Opened(s.conns[k].channel, ev.d) == Some(Subscribe(topic, capability))
    && p.verifyTopic(capability, topic)
  }

  lemma AfterDataGrants(p: Policy, c: Conn, d: Dgram, g: (Option<Capability>, Topic))
    requires g in AfterData(p, c, d).0.granted && g !in c.granted
    ensures Opened(c.channel, d) == Some(Subscribe(g.1, g.0)) && p.verifyTopic(g.0, g.1)
  {
  }

  lemma NewConnsUngranted(p: Policy, s: Server, src: Addr, d: Dgram, load: bool, now: nat, k: nat)
    requires |s.conns| <= k < |Route(p, s, src, d, load, now).server.conns|
    ensures Route(p, s, src, d, load, now).server.conns[k].granted == {}
  {
    hide OnHs1, AfterData;
    if d.Hs1? || d.Hs1Malformed? {
      Hs1Effect(s, src, d, load, now);
    }
  }

  lemma StepGrants(p: Policy, s: Server, ev: ServerEvent, k: nat, g: (Option<Capability>, Topic))
    requires k < |Step(p, s, ev).server.conns| && g in Step(p, s, ev).server.conns[k].granted
    requires k < |s.conns| ==> g !in s.conns[k].granted
    ensures GrantsAt(p, s, ev, k, g.0, g.1)
  {
    hide Route, AfterData;
    if ev.Arrive? {
      var now := s.clock + ev.before;
      if k < |s.conns| {
        RouteConn(p, s, ev.src, ev.d, ev.load, now, k);
        if ev.d.Data? && ev.src in s.peers && s.peers[ev.src].conn == k {
          AfterDataGrants(p, s.conns[k], ev.d, g);
        }
      } else {
        NewConnsUngranted(p, s, ev.src, ev.d, ev.load, now, k);
      }
    }
  }

  lemma {:induction false} GrantOrigin(p: Policy, evs: seq<ServerEvent>, k: nat, g: (Option<Capability>, Topic))
    returns (i: nat)
    requires k < |Run(p, evs).conns| && g in Run(p, evs).conns[k].granted
    ensures i < |evs| && GrantsAt(p, Run(p, evs[..i]), evs[i], k, g.0, g.1)
  {
    hide Step;
    var n := |evs| - 1;
    var s := Run(p, evs[..n]);
    if k < |s.conns| && g in s.conns[k].granted {
      i := GrantOrigin(p, evs[..n], k, g);
      assert evs[..n][..i] == evs[..i];
    } else {
      i := n;
      StepGrants(p, s, evs[n], k, g);
    }
  }

  /** An event waiting in a connection's queue is on a topic that an earlier
      subscription on that same connection asked for and was allowed. */
  lemma QueuedEventsAllowed(p: Policy, evs: seq<ServerEvent>, k: nat, ev: TopicEvent)
    returns (i: nat, capability: Option<Capability>)
    requires k < |Run(p, evs).conns| && Event(ev) in Run(p, evs).conns[k].queue
    ensures i < |evs| && GrantsAt(p, Run(p, evs[..i]), evs[i], k, capability, ev.topic)
  {
    RunKeeps(p, evs);
    var c := Run(p, evs).conns[k];
    assert ConnOk(p, c) && Event(ev).Event?;
    assert Granted(c, ev.topic);
    var g :| g in c.granted && g.1 == ev.topic;
    capability := g.0;
    i := GrantOrigin(p, evs, k, g);
  }

  lemma OnlySealersSendEvents(p: Policy, s: Server, ev: ServerEvent, dst: Addr, r: Record, e: TopicEvent)
    requires Step(p, s, ev).sent == Some(Output(dst, Data(r))) && r.Record? && r.plain == Env(Event(e))
    ensures ev.SealerRuns? && ev.conn < |s.conns|
    ensures Event(e) in s.conns[ev.conn].queue && dst == s.conns[ev.conn].addr
    ensures r.key == s.conns[ev.conn].channel.sealer.key
  {
  }

  /** And so is every event that leaves the server: it is sealed for the
      connection, and sent to the address, that was allowed to have it. */
  lemma SentEventsAllowed(p: Policy, evs: seq<ServerEvent>, ev: ServerEvent, dst: Addr, r: Record, e: TopicEvent)
    returns (k: nat, i: nat, capability: Option<Capability>)
    requires Step(p, Run(p, evs), ev).sent == Some(Output(dst, Data(r))) && r.Record? && r.plain == Env(Event(e))
    ensures i < |evs| && GrantsAt(p, Run(p, evs[..i]), evs[i], k, capability, e.topic)
    ensures k < |Run(p, evs).conns| && Run(p, evs).conns[k].addr == dst
    ensures r.key == RecordKey(Run(p, evs).conns[k].seed, S2C)
  {
    OnlySealersSendEvents(p, Run(p, evs), ev, dst, r, e);
    k := ev.conn;
    i, capability := QueuedEventsAllowed(p, evs, k, e);
    RunKeeps(p, evs);
    assert ConnOk(p, Run(p, evs).conns[k]);
  }

  // ---- Lifetime of the sealer task -------------------------------------------

  /** Some peer's entry still leads to connection `k`. */
  predicate HasEntry(s: Server, k: nat) {
    exists a | a in s.peers :: s.peers[a].conn == k
  }

  /** A sealer that has ended has no sender left, and everything queued for it
      has been sealed. */
  lemma EndedOnlyWithoutSenders(p: Policy, evs: seq<ServerEvent>, k: nat)
    requires k < |Run(p, evs).conns| && Run(p, evs).conns[k].sealerEnded
    ensures !HasEntry(Run(p, evs), k)
    ensures Run(p, evs).conns[k].forwarders == [] && Run(p, evs).conns[k].queue == []
  {
    RunKeeps(p, evs);
    assert ConnOk(p, Run(p, evs).conns[k]);
  }

  /** How often the sealer task of `k` gets a turn. */
  function TurnsOf(k: nat, evs: seq<ServerEvent>): nat {
    if evs == [] then 0
    else TurnsOf(k, evs[..|evs| - 1]) + if evs[|evs| - 1] == SealerRuns(k) then 1 else 0
  }

  /** A datagram leaves a connection nobody can queue for as it is, and nobody is
      added who could. */
  lemma HandleWithoutSender(p: Policy, s: Server, src: Addr, d: Dgram, load: bool, before: nat, after: nat, k: nat)
    requires k < |s.conns| && !HasSender(s, k)
    ensures
      var s' := HandleDgram(p, s, src, d, load, before, after).server;
      k < |s'.conns| && s'.conns[k] == s.conns[k] && !HasSender(s', k)
  {
    hide Route, Finish, AfterData;
    var now := s.clock + before;
    var out := Route(p, s, src, d, load, now);
    RouteConn(p, s, src, d, load, now, k);
    RouteEntries(p, s, src, d, load, now);
    FinishEffect(out, now + after);
  }

  /** An entry of `peers` leads where it led before, or to a new connection. */
  lemma RouteEntries(p: Policy, s: Server, src: Addr, d: Dgram, load: bool, now: nat)
    ensures
      var s' := Route(p, s, src, d, load, now).server;
      forall a | a in s'.peers :: (a in s.peers && s'.peers[a].conn == s.peers[a].conn) || s'.peers[a].conn == |s.conns|
  {
    hide OnHs1, AfterData, NewConn;
    if d.Hs1? || d.Hs1Malformed? {
      Hs1Effect(s, src, d, load, now);
    }
  }

  /** One event on a connection nobody can queue for: only its sealer touches it. */
  lemma StepWithoutSender(p: Policy, s: Server, ev: ServerEvent, k: nat)
    requires k < |s.conns| && !HasSender(s, k)
    ensures
      var s' := Step(p, s, ev).server;
      && k < |s'.conns| && !HasSender(s', k)
      && (ev != SealerRuns(k) ==> s'.conns[k] == s.conns[k])
      && (ev == SealerRuns(k) ==>
            && s'.conns[k].queue == (if s.conns[k].sealerEnded || s.conns[k].queue == [] then s.conns[k].queue
                                     else s.conns[k].queue[1..])
            && (s'.conns[k].sealerEnded <==> s.conns[k].sealerEnded || s.conns[k].queue == []))
  {
    hide HandleDgram;
    if ev.Arrive? {
      HandleWithoutSender(p, s, ev.src, ev.d, ev.load, ev.before, ev.after, k);
    }
  }

  /** Once the last sender is gone, nobody ever queues again: through every run the
      task seals one envelope a turn until the queue is empty, and ends on the
      next turn. */
  lemma {:induction false} DrainThenEnd(p: Policy, s: Server, evs: seq<ServerEvent>, k: nat)
    requires k < |s.conns| && !HasSender(s, k) && !s.conns[k].sealerEnded
    ensures
      var s', turns, queue := RunFrom(p, s, evs), TurnsOf(k, evs), s.conns[k].queue;
      && k < |s'.conns| && !HasSender(s', k)
      && (s'.conns[k].sealerEnded <==> turns > |queue|)
      && s'.conns[k].queue == (if turns <= |queue| then queue[turns..] else [])
  {
    if evs != [] {
      hide Step, HasSender;
      var n := |evs| - 1;
      DrainThenEnd(p, s, evs[..n], k);
      StepWithoutSender(p, RunFrom(p, s, evs[..n]), evs[n], k);
    }
  }

  /** The task ends at this event exactly if it is its turn, its queue is empty and
      nobody can queue any more. */
  lemma SealerEndsIff(p: Policy, s: Server, ev: ServerEvent, k: nat)
    requires k < |s.conns| && !s.conns[k].sealerEnded
    ensures
      var s' := Step(p, s, ev).server;
      && k < |s'.conns|
      && (s'.conns[k].sealerEnded <==> ev == SealerRuns(k) && s.conns[k].queue == [] && !HasSender(s, k))
  {
    hide Route, Finish, AfterData;
    if ev.Arrive? {
      var now := s.clock + ev.before;
      RouteConn(p, s, ev.src, ev.d, ev.load, now, k);
      AfterDataKeepsSealer(p, s.conns[k], ev.d);
      FinishEffect(Route(p, s, ev.src, ev.d, ev.load, now), now + ev.after);
    }
  }

  lemma AfterDataKeepsSealer(p: Policy, c: Conn, d: Dgram)
    ensures AfterData(p, c, d).0.sealerEnded == c.sealerEnded
  {
  }

  lemma AfterDataKeepsForwarders(p: Policy, c: Conn, d: Dgram)
    requires c.forwarders != []
    ensures AfterData(p, c, d).0.forwarders != []
  {
  }

  lemma HandleKeepsForwarders(p: Policy, s: Server, src: Addr, d: Dgram, load: bool, before: nat, after: nat, k: nat)
    requires k < |s.conns| && s.conns[k].forwarders != []
    ensures
      var s' := HandleDgram(p, s, src, d, load, before, after).server;
      k < |s'.conns| && s'.conns[k].forwarders != []
  {
    hide Route, Finish, AfterData;
    var now := s.clock + before;
    AfterDataKeepsForwarders(p, s.conns[k], d);
    RouteConn(p, s, src, d, load, now, k);
    FinishEffect(Route(p, s, src, d, load, now), now + after);
  }

  lemma StepKeepsForwarders(p: Policy, s: Server, ev: ServerEvent, k: nat)
    requires k < |s.conns| && s.conns[k].forwarders != [] && !s.conns[k].sealerEnded
    requires !(ev.SourceClosed? && ev.conn == k)
    ensures
      var s' := Step(p, s, ev).server;
      k < |s'.conns| && s'.conns[k].forwarders != []
  {
    hide HandleDgram;
    if ev.Arrive? {
      HandleKeepsForwarders(p, s, ev.src, ev.d, ev.load, ev.before, ev.after, k);
    }
  }

  /** As long as its event source stays open, a subscription keeps the sealer
      task of its connection alive through every run: eviction included. */
  lemma {:induction false} SubscriptionKeepsSealer(p: Policy, s: Server, evs: seq<ServerEvent>, k: nat)
    requires TableInv(p, s) && k < |s.conns| && s.conns[k].forwarders != []
    requires forall i | 0 <= i < |evs| :: !(evs[i].SourceClosed? && evs[i].conn == k)
    ensures
      var s' := RunFrom(p, s, evs);
      && TableInv(p, s') && k < |s'.conns|
      && s'.conns[k].forwarders != [] && !s'.conns[k].sealerEnded
  {
    var s' := RunFrom(p, s, evs);
    if evs != [] {
      hide Step;
      var n := |evs| - 1;
      SubscriptionKeepsSealer(p, s, evs[..n], k);
      StepKeepsForwarders(p, RunFrom(p, s, evs[..n]), evs[n], k);
      StepKeeps(p, RunFrom(p, s, evs[..n]), evs[n]);
    }
    assert ConnOk(p, s'.conns[k]);
  }

  /** After `i` events nobody can queue for `k` any more, and the rest of the history
      gives its sealer one turn more than there is left to seal. */
  predicate LeftToDrain(p: Policy, s: Server, evs: seq<ServerEvent>, k: nat, i: nat)
    requires i <= |evs|
  {
    var s' := RunFrom(p, s, evs[..i]);
    k < |s'.conns| && !HasSender(s', k) && TurnsOf(k, evs[i..]) > |s'.conns[k].queue|
  }

  /** In every history, from every state: the sealer task of a connection ends
      exactly if at some point its last sender was gone and it then got its turns. */
  lemma {:induction false} SealerEndedIff(p: Policy, s: Server, evs: seq<ServerEvent>, k: nat)
    requires k < |s.conns| && !s.conns[k].sealerEnded
    ensures k < |RunFrom(p, s, evs).conns|
    ensures RunFrom(p, s, evs).conns[k].sealerEnded <==> exists i | 0 <= i <= |evs| :: LeftToDrain(p, s, evs, k, i)
  {
    hide Step, HasSender;
    RunFromGrows(p, s, evs);
    if RunFrom(p, s, evs).conns[k].sealerEnded {
      var i := EndedWhen(p, s, evs, k);
    }
    if i :| 0 <= i <= |evs| && LeftToDrain(p, s, evs, k, i) {
      var s1 := RunFrom(p, s, evs[..i]);
      assert evs == evs[..i] + evs[i..];
      RunSplits(p, s, evs[..i], evs[i..]);
      if s1.conns[k].sealerEnded {
        EndedStays(p, s1, evs[i..], k);
      } else {
        DrainThenEnd(p, s1, evs[i..], k);
      }
    }
  }

  lemma {:induction false} EndedWhen(p: Policy, s: Server, evs: seq<ServerEvent>, k: nat) returns (i: nat)
    requires k < |s.conns| && !s.conns[k].sealerEnded
    requires k < |RunFrom(p, s, evs).conns| && RunFrom(p, s, evs).conns[k].sealerEnded
    ensures i <= |evs| && LeftToDrain(p, s, evs, k, i)
  {
    hide Step, HasSender;
    assert evs != [];
    var n := |evs| - 1;
    var s1 := RunFrom(p, s, evs[..n]);
    RunFromGrows(p, s, evs[..n]);
    if s1.conns[k].sealerEnded {
      i := EndedWhen(p, s, evs[..n], k);
      assert evs[..n][..i] == evs[..i] && evs[..n][i..] == evs[i..][..n - i];
    } else {
      i := n;
      SealerEndsIff(p, s1, evs[n], k);
      assert evs[n..][..0] == [] && evs[n..] == [evs[n]];
    }
  }

  lemma {:induction false} EndedStays(p: Policy, s: Server, evs: seq<ServerEvent>, k: nat)
    requires k < |s.conns| && s.conns[k].sealerEnded
    ensures k < |RunFrom(p, s, evs).conns| && RunFrom(p, s, evs).conns[k].sealerEnded
  {
    if evs != [] {
      hide Step;
      var n := |evs| - 1;
      EndedStays(p, s, evs[..n], k);
      StepKeepsEnded(p, RunFrom(p, s, evs[..n]), evs[n], k);
    }
  }

  lemma StepKeepsEnded(p: Policy, s: Server, ev: ServerEvent, k: nat)
    requires k < |s.conns| && s.conns[k].sealerEnded
    ensures k < |Step(p, s, ev).server.conns| && Step(p, s, ev).server.conns[k].sealerEnded
  {
    hide Route, Finish, AfterData;
    if ev.Arrive? {
      var now := s.clock + ev.before;
      RouteConn(p, s, ev.src, ev.d, ev.load, now, k);
      AfterDataKeepsSealer(p, s.conns[k], ev.d);
      FinishEffect(Route(p, s, ev.src, ev.d, ev.load, now), now + ev.after);
    }
  }

  /** Once the entry in `peers` is gone, and as long as no event source of the
      connection closes: through every run the sealer task ends, after its queue is
      drained, exactly when no subscription forwarder was left. */
  lemma EvictionEndsSealerIff(p: Policy, s: Server, evs: seq<ServerEvent>, k: nat)
    requires TableInv(p, s) && k < |s.conns| && !s.conns[k].sealerEnded && !HasEntry(s, k)
    requires forall i | 0 <= i < |evs| :: !(evs[i].SourceClosed? && evs[i].conn == k)
    ensures
      var s' := RunFrom(p, s, evs);
      && k < |s'.conns|
      && (s'.conns[k].sealerEnded <==> s.conns[k].forwarders == [] && TurnsOf(k, evs) > |s.conns[k].queue|)
  {
    if s.conns[k].forwarders == [] {
      DrainThenEnd(p, s, evs, k);
    } else {
      SubscriptionKeepsSealer(p, s, evs, k);
    }
  }

  lemma AfterDataQueues(p: Policy, c: Conn, d: Dgram)
    ensures c.queue <= AfterData(p, c, d).0.queue
  {
  }

  /** One event: a turn of the sealer takes the first envelope, any other event only
      appends. */
  lemma StepQueues(p: Policy, s: Server, ev: ServerEvent, k: nat)
    requires k < |s.conns| && !s.conns[k].sealerEnded && s.conns[k].queue != []
    ensures
      var s' := Step(p, s, ev).server;
      && k < |s'.conns| && !s'.conns[k].sealerEnded
      && SameIdentity(s.conns[k], s'.conns[k])
      && (if ev == SealerRuns(k) then s'.conns[k].queue == s.conns[k].queue[1..]
          else s.conns[k].queue <= s'.conns[k].queue)
  {
    hide Route, Finish, AfterData;
    SealerEndsIff(p, s, ev, k);
    StepGrows(p, s, ev);
    if ev.Arrive? {
      var now := s.clock + ev.before;
      RouteConn(p, s, ev.src, ev.d, ev.load, now, k);
      AfterDataQueues(p, s.conns[k], ev.d);
      FinishEffect(Route(p, s, ev.src, ev.d, ev.load, now), now + ev.after);
    }
  }

  /** A queued envelope moves up one place a turn, whatever else happens. */
  lemma {:induction false} QueueMovesUp(p: Policy, s: Server, evs: seq<ServerEvent>, k: nat, i: nat)
    requires k < |s.conns| && !s.conns[k].sealerEnded && i < |s.conns[k].queue| && TurnsOf(k, evs) <= i
    ensures
      var s' := RunFrom(p, s, evs);
      && k < |s'.conns| && !s'.conns[k].sealerEnded && SameIdentity(s.conns[k], s'.conns[k])
      && i - TurnsOf(k, evs) < |s'.conns[k].queue|
      && s'.conns[k].queue[i - TurnsOf(k, evs)] == s.conns[k].queue[i]
  {
    if evs != [] {
      hide Step;
      var n := |evs| - 1;
      QueueMovesUp(p, s, evs[..n], k, i);
      StepQueues(p, RunFrom(p, s, evs[..n]), evs[n], k);
    }
  }

  /** An event published to a subscription reaches the peer's address, evicted or
      not: whatever happens meanwhile, the sealer sends it, under the key of the
      connection, once it has sent what was queued before. */
  lemma EvictedStillReceives(p: Policy, s: Server, k: nat, f: nat, e: TopicEvent, evs: seq<ServerEvent>)
    requires TableInv(p, s) && k < |s.conns|
    requires f < |s.conns[k].forwarders| && s.conns[k].forwarders[f] == e.topic
    requires TurnsOf(k, evs) == |s.conns[k].queue|
    ensures
      var s' := RunFrom(p, Step(p, s, Publish(k, f, e)).server, evs);
      && k < |s'.conns|
      && Step(p, s', SealerRuns(k)).sent
         == Some(Output(s.conns[k].addr, Data(Record(RecordKey(s.conns[k].seed, S2C), s'.conns[k].channel.sealer.next, Env(Event(e))))))
  {
    hide Step, RunFrom, TableInv, TurnsOf;
    PublishQueues(p, s, k, f, e);
    var s1 := Step(p, s, Publish(k, f, e)).server;
    StepKeeps(p, s, Publish(k, f, e));
    QueueMovesUp(p, s1, evs, k, |s.conns[k].queue|);
    RunFromKeeps(p, s1, evs);
    HeadIsSent(p, RunFrom(p, s1, evs), k);
  }

  lemma PublishQueues(p: Policy, s: Server, k: nat, f: nat, e: TopicEvent)
    requires TableInv(p, s) && k < |s.conns|
    requires f < |s.conns[k].forwarders| && s.conns[k].forwarders[f] == e.topic
    ensures
      var s' := Step(p, s, Publish(k, f, e)).server;
      && k < |s'.conns| && !s'.conns[k].sealerEnded && SameIdentity(s.conns[k], s'.conns[k])
      && s'.conns[k].queue == s.conns[k].queue + [Event(e)]
  {
    assert ConnOk(p, s.conns[k]);
  }

  lemma HeadIsSent(p: Policy, s: Server, k: nat)
    requires TableInv(p, s) && k < |s.conns| && !s.conns[k].sealerEnded && s.conns[k].queue != []
    ensures
      var c := s.conns[k];
      Step(p, s, SealerRuns(k)).sent
      == Some(Output(c.addr, Data(Record(RecordKey(c.seed, S2C), c.channel.sealer.next, Env(c.queue[0])))))
  {
    assert ConnOk(p, s.conns[k]);
  }

  /** Data from `a` at this instant: its connection takes it, its entry stays. */
  lemma HeardFrom(p: Policy, s: Server, a: Addr, d: Dgram)
    requires TableInv(p, s) && a in s.peers && d.Data?
    ensures
      var s' := Step(p, s, Arrive(a, d, false, 0, 0)).server;
      var k := s.peers[a].conn;
      && |s'.conns| == |s.conns| && s'.conns[k] == AfterData(p, s.conns[k], d).0
      && s'.clock == s.clock && a in s'.peers && s'.peers[a] == Peer(k, s.clock)
  {
    hide AfterData, IdsOk, ConnOk, Opened;
  }

  /** A stray datagram of a type the server ignores sweeps the idle peers out. */
  lemma StraySweeps(p: Policy, s: Server, b: Addr, wait: nat)
    ensures
      var s' := Step(p, s, Arrive(b, Hs2(BadMsg2), false, wait, 0)).server;
      && s'.conns == s.conns
      && forall a | a in s'.peers :: a in s.peers && s'.peers[a] == s.peers[a]
                                     && s.clock + wait - s.peers[a].lastSeen < PEER_IDLE_TIMEOUT
  {
  }

  /** The comment at the clean-up says that dropping a peer's entry closes its
      sealer task. It need not: let any established peer subscribe and then stay
      silent for 120 s, and the next stray datagram, from anywhere, removes its
      entry while its forwarder and its sealer live on. */
  lemma EvictionLeavesSealer(p: Policy, evs: seq<ServerEvent>, a: Addr, ask: Dgram, topic: Topic, b: Addr)
    requires a in Run(p, evs).peers && Run(p, evs).peers[a].conn < |Run(p, evs).conns|
    requires p.verifyTopic(None, topic) && p.eventSource(topic)
    requires Opened(Run(p, evs).conns[Run(p, evs).peers[a].conn].channel, ask) == Some(Subscribe(topic, None))
    ensures
      var k := Run(p, evs).peers[a].conn;
      var s' := RunFrom(p, Run(p, evs), [Arrive(a, ask, false, 0, 0),
                                         Arrive(b, Hs2(BadMsg2), false, PEER_IDLE_TIMEOUT, 0)]);
      k < |s'.conns| && !HasEntry(s', k) && s'.conns[k].forwarders != [] && !s'.conns[k].sealerEnded
  {
    RunKeeps(p, evs);
    var s := Run(p, evs);
    var k := s.peers[a].conn;
    var e1, e2 := Arrive(a, ask, false, 0, 0), Arrive(b, Hs2(BadMsg2), false, PEER_IDLE_TIMEOUT, 0);
    assert AfterData(p, s.conns[k], ask).0.forwarders == s.conns[k].forwarders + [topic];
    hide Step, AfterData, Run;
    HeardFrom(p, s, a, ask);
    var s1 := Step(p, s, e1).server;
    StepKeeps(p, s, e1);
    StraySweeps(p, s1, b, PEER_IDLE_TIMEOUT);
    StepKeeps(p, s1, e2);
    var s2 := Step(p, s1, e2).server;
    assert ConnOk(p, s2.conns[k]);
    TwoSteps(p, s, e1, e2);
  }

  lemma TwoSteps(p: Policy, s: Server, e1: ServerEvent, e2: ServerEvent)
    ensures RunFrom(p, s, [e1, e2]) == Step(p, Step(p, s, e1).server, e2).server
  {
    hide Step;
    assert [e1, e2][..1] == [e1];
    assert RunFrom(p, s, [e1]) == Step(p, RunFrom(p, s, []), e1).server;
  }
}
