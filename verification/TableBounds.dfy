/** How large the two tables can get, in every reachable state. */
module TableBounds {
  import opened Common
  import opened Wire
  import opened PeerTable

  const CEILING: nat := MAX_PEERS - 1 + MAX_PENDING

  lemma RemovedSize<K, V>(m: map<K, V>, k: K)
    requires k in m
    ensures |m - {k}| == |m| - 1
  {
    assert (m - {k}).Keys == m.Keys - {k};
  }

  lemma SubmapSize<K, V>(small: map<K, V>, big: map<K, V>)
    requires small.Keys <= big.Keys
    ensures |small| <= |big|
  {
    SubsetSize(small.Keys, big.Keys);
  }

  lemma {:induction false} SubsetSize<K>(small: set<K>, big: set<K>)
    requires small <= big
    ensures |small| <= |big|
  {
    if small != {} {
      var x :| x in small;
      SubsetSize(small - {x}, big - {x});
    }
  }

  predicate Bounded(s: Server) {
    |s.pending| <= MAX_PENDING && |s.peers| + |s.pending| <= CEILING
  }

  lemma Hs1KeepsBounds(s: Server, src: Addr, d: Dgram, load: bool, now: nat)
    requires d.Hs1? || d.Hs1Malformed?
    requires Bounded(s)
    ensures Bounded(OnHs1(s, src, d, load, now).server)
  {
    hide OnHs1;
    Hs1Effect(s, src, d, load, now);
  }

  lemma Hs3KeepsBounds(p: Policy, s: Server, src: Addr, m: Msg3, now: nat)
    requires Bounded(s)
    ensures Bounded(OnHs3(p, s, src, m, now).server)
  {
    if src in s.pending {
      RemovedSize(s.pending, src);
    }
  }

  lemma RouteKeepsBounds(p: Policy, s: Server, src: Addr, d: Dgram, load: bool, now: nat)
    requires Bounded(s)
    ensures Bounded(Route(p, s, src, d, load, now).server)
  {
    match d
    case Hs1Malformed => Hs1KeepsBounds(s, src, d, load, now);
    case Hs1(_, _) => Hs1KeepsBounds(s, src, d, load, now);
    case Hs3(m) => Hs3KeepsBounds(p, s, src, m, now);
    case _ =>
  }

  lemma FinishKeepsBounds(out: Outcome, now: nat)
    requires Bounded(out.server)
    ensures Bounded(Finish(out, now).server)
  {
    SubmapSize(Sweep(out.server, now).pending, out.server.pending);
    SubmapSize(Sweep(out.server, now).peers, out.server.peers);
  }

  lemma HandleKeepsBounds(p: Policy, s: Server, src: Addr, d: Dgram, load: bool, before: nat, after: nat)
    requires Bounded(s)
    ensures Bounded(HandleDgram(p, s, src, d, load, before, after).server)
  {
    hide Route, Finish, Bounded;
    var now := s.clock + before;
    RouteKeepsBounds(p, s, src, d, load, now);
    FinishKeepsBounds(Route(p, s, src, d, load, now), now + after);
  }

  lemma StepKeepsBounds(p: Policy, s: Server, ev: ServerEvent)
    requires Bounded(s)
    ensures Bounded(Step(p, s, ev).server)
  {
    if ev.Arrive? {
      HandleKeepsBounds(p, s, ev.src, ev.d, ev.load, ev.before, ev.after);
    }
  }

  /** At most 2048 half-open handshakes, and at most 3071 entries in all: the
      1024 limit on peers is consulted only when a handshake begins. */
  lemma {:induction false} TablesBounded(p: Policy, evs: seq<ServerEvent>)
    ensures |Run(p, evs).pending| <= 2048
    ensures |Run(p, evs).peers| + |Run(p, evs).pending| <= 3071
  {
    assert Bounded(Run(p, evs)) by {
      BoundedRun(p, evs);
    }
  }

  lemma {:induction false} BoundedRun(p: Policy, evs: seq<ServerEvent>)
    ensures Bounded(Run(p, evs))
  {
    if evs != [] {
      BoundedRun(p, evs[..|evs| - 1]);
      StepKeepsBounds(p, Run(p, evs[..|evs| - 1]), evs[|evs| - 1]);
    }
  }

  // ---- The ceiling is attained ----------------------------------------------

  function Block(lo: nat, n: nat): (r: set<Addr>)
    ensures |r| == n
    ensures forall x: Addr :: x in r <==> lo <= x < lo + n
  {
    if n == 0 then {} else Block(lo, n - 1) + {lo + n - 1}
  }

  /** Every entry is of this instant and waits for the same kind of initiator. */
  predicate AllNew(s: Server) {
    && (forall a | a in s.pending :: s.pending[a].createdAt == s.clock && s.pending[a].responder.initiator == Rogue(0))
    && (forall a | a in s.peers :: s.peers[a].lastSeen == s.clock)
  }

  function Hello(a: Addr, cookie: Option<Cookie>): ServerEvent {
    Arrive(a, Hs1(Msg1(Rogue(0)), cookie), true, 0, 0)
  }

  function Confirm(a: Addr, id: nat, key: StaticKey): ServerEvent {
    Arrive(a, Hs3(Msg3(Rogue(0), id, key, Some(Rogue(0)))), false, 0, 0)
  }

  lemma ChallengeStep(p: Policy, s: Server, a: Addr)
    requires AllNew(s) && |s.peers| < MAX_PEERS
    ensures
      var s' := Step(p, s, Hello(a, None)).server;
      s' == s.(issued := s.issued + {Minted(s.epoch, a)})
  {
    FinishAllNew(OnHs1(s, a, Hello(a, None).d, true, s.clock));
  }

  lemma AdmitRoute(s: Server, a: Addr, now: nat)
    requires |s.peers| < MAX_PEERS && |s.pending| < MAX_PENDING
    ensures
      var cookie := Minted(s.epoch, a);
      var out := OnHs1(s, a, Hs1(Msg1(Rogue(0)), Some(cookie)), true, now);
      && out.toEnd
      && out.server.pending == s.pending[a := Pending(Responder(s.nextResponder, Rogue(0)), now, Some(cookie))]
      && out.server.peers == s.peers && out.server.clock == s.clock
  {
  }

  /** Nothing is old enough to be swept. */
  lemma FinishAllNew(out: Outcome)
    requires AllNew(out.server)
    ensures
      var s' := Finish(out, out.server.clock).server;
      AllNew(s') && s'.peers == out.server.peers && s'.pending == out.server.pending
  {
  }

  lemma AdmitStep(p: Policy, s: Server, a: Addr)
    requires AllNew(s) && |s.peers| < MAX_PEERS && |s.pending| < MAX_PENDING
    requires Minted(s.epoch, a) in s.issued
    ensures
      var s' := Step(p, s, Hello(a, Some(Minted(s.epoch, a)))).server;
      AllNew(s') && s'.peers == s.peers && s'.pending.Keys == s.pending.Keys + {a}
  {
    hide OnHs1, OnHs3, OnData, Finish;
    AdmitRoute(s, a, s.clock);
    var out := OnHs1(s, a, Hs1(Msg1(Rogue(0)), Some(Minted(s.epoch, a))), true, s.clock);
    assert AllNew(out.server);
    hide AllNew;
    FinishAllNew(out);
  }

  lemma ConfirmStep(p: Policy, key: StaticKey, s: Server, a: Addr)
    requires p.gate(key) && AllNew(s) && a in s.pending
    ensures
      var s' := Step(p, s, Confirm(a, s.pending[a].responder.id, key)).server;
      AllNew(s') && s'.peers.Keys == s.peers.Keys + {a} && s'.pending.Keys == s.pending.Keys - {a}
  {
    var m := Msg3(Rogue(0), s.pending[a].responder.id, key, Some(Rogue(0)));
    FinishAllNew(OnHs3(p, s, a, m, s.clock));
  }

  lemma RunThen(p: Policy, evs: seq<ServerEvent>, ev: ServerEvent)
    ensures Run(p, evs + [ev]) == Step(p, Run(p, evs), ev).server
  {
    assert (evs + [ev])[..|evs|] == evs;
  }

  /** A run that ends with these peers and these half-open sources. */
  predicate Reached(p: Policy, evs: seq<ServerEvent>, peers: set<Addr>, pending: set<Addr>) {
    AllNew(Run(p, evs)) && Run(p, evs).peers.Keys == peers && Run(p, evs).pending.Keys == pending
  }

  lemma Admit(p: Policy, evs: seq<ServerEvent>, peers: set<Addr>, pending: set<Addr>, a: Addr)
    returns (evs': seq<ServerEvent>)
    requires Reached(p, evs, peers, pending) && |peers| < MAX_PEERS && |pending| < MAX_PENDING
    ensures Reached(p, evs', peers, pending + {a})
  {
    hide Step;
    var s := Run(p, evs);
    assert |s.peers| == |s.peers.Keys| && |s.pending| == |s.pending.Keys|;
    ChallengeStep(p, s, a);
    RunThen(p, evs, Hello(a, None));
    evs' := evs + [Hello(a, None)];
    AdmitStep(p, Run(p, evs'), a);
    RunThen(p, evs', Hello(a, Some(Minted(s.epoch, a))));
    evs' := evs' + [Hello(a, Some(Minted(s.epoch, a)))];
  }

  lemma ConfirmOne(p: Policy, key: StaticKey, evs: seq<ServerEvent>, peers: set<Addr>, pending: set<Addr>, a: Addr)
    returns (evs': seq<ServerEvent>)
    requires p.gate(key) && Reached(p, evs, peers, pending) && a in pending
    ensures Reached(p, evs', peers + {a}, pending - {a})
  {
    hide Step;
    var s := Run(p, evs);
    ConfirmStep(p, key, s, a);
    RunThen(p, evs, Confirm(a, s.pending[a].responder.id, key));
    evs' := evs + [Confirm(a, s.pending[a].responder.id, key)];
  }

  lemma StartReached(p: Policy) returns (evs: seq<ServerEvent>)
    ensures Reached(p, evs, {}, {})
  {
    evs := [];
  }

  lemma OneMore(p: Policy, key: StaticKey, evs: seq<ServerEvent>, peers: set<Addr>, a: Addr)
    returns (evs': seq<ServerEvent>)
    requires p.gate(key) && Reached(p, evs, peers, {}) && |peers| < MAX_PEERS
    ensures Reached(p, evs', peers + {a}, {})
  {
    hide Reached;
    evs' := Admit(p, evs, peers, {}, a);
    var pending := {} + {a};
    evs' := ConfirmOne(p, key, evs', peers, pending, a);
    assert pending - {a} == {};
  }

  /** Any number of established peers up to the limit... */
  lemma FillPeers(p: Policy, key: StaticKey, n: nat) returns (evs: seq<ServerEvent>)
    requires p.gate(key) && n <= MAX_PEERS
    ensures Reached(p, evs, Block(0, n), {})
  {
    hide Reached, Block;
    if n == 0 {
      assert Block(0, 0) == {};
      evs := StartReached(p);
    } else {
      evs := FillPeers(p, key, n - 1);
      evs := OneMore(p, key, evs, Block(0, n - 1), n - 1);
      assert Block(0, n - 1) + {n - 1} == Block(0, n);
    }
  }

  /** ... then, below it, any number of half-open handshakes on top of them ... */
  lemma FillPending(p: Policy, key: StaticKey, established: nat, n: nat) returns (evs: seq<ServerEvent>)
    requires p.gate(key) && established < MAX_PEERS && n <= MAX_PENDING
    ensures Reached(p, evs, Block(0, established), Block(established, n))
  {
    hide Reached;
    if n == 0 {
      evs := FillPeers(p, key, established);
    } else {
      evs := FillPending(p, key, established, n - 1);
      evs := Admit(p, evs, Block(0, established), Block(established, n - 1), established + n - 1);
    }
  }

  /** ... and then `n` of those complete. */
  lemma Complete(p: Policy, key: StaticKey, established: nat, halfOpen: nat, n: nat) returns (evs: seq<ServerEvent>)
    requires p.gate(key) && established < MAX_PEERS && n <= halfOpen <= MAX_PENDING
    ensures Reached(p, evs, Block(0, established + n), Block(established + n, halfOpen - n))
  {
    hide Reached, Block;
    if n == 0 {
      evs := FillPending(p, key, established, halfOpen);
    } else {
      evs := Complete(p, key, established, halfOpen, n - 1);
      var a := established + n - 1;
      var peers, pending := Block(0, a), Block(a, halfOpen - n + 1);
      evs := ConfirmOne(p, key, evs, peers, pending, a);
      assert peers + {a} == Block(0, established + n);
      assert pending - {a} == Block(established + n, halfOpen - n);
    }
  }

  /** The ceiling of `TablesBounded` is tight: some run ends with 3071 peers. */
  lemma CeilingAttained(p: Policy, key: StaticKey) returns (evs: seq<ServerEvent>)
    requires p.gate(key)
    ensures |Run(p, evs).peers| == 3071
  {
    hide Run, Block;
    var m: nat := MAX_PENDING;
    evs := Complete(p, key, MAX_PEERS - 1, m, m);
    assert |Run(p, evs).peers| == |Run(p, evs).peers.Keys|;
  }
}
