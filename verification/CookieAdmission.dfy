/** What the cookie challenge guarantees, in every run. */
module CookieAdmission {
  import opened Common
  import opened Wire
  import opened PeerTable
  import opened TableInvariant
  import TableBounds

  /** The half-open handshakes that were admitted without a verified cookie. */
  function Unproven(s: Server): set<Addr> {
    set a | a in s.pending && s.pending[a].proof.None?
  }

  /** A step either adds no unproven entry, or it starts below the soft limit. */
  lemma StepUnproven(p: Policy, s: Server, ev: ServerEvent)
    ensures
      var s' := Step(p, s, ev).server;
      || Unproven(s') <= Unproven(s)
      || (|s.pending| < PENDING_SOFT_LIMIT && exists a :: Unproven(s') <= s.pending.Keys + {a})
  {
    hide Step;
    var s' := Step(p, s, ev).server;
    forall a | a in s'.pending
      ensures (a in s.pending && s.pending[a] == s'.pending[a])
              || s'.pending[a].proof.Some?
              || (ev.Arrive? && !EffectiveLoad(s, ev.load) && AnswersHs2(Step(p, s, ev), a))
    {
      StepPending(p, s, ev, a);
    }
    if ev.Arrive? && !EffectiveLoad(s, ev.load) {
      var out := Step(p, s, ev);
      var a := if out.sent.Some? then out.sent.value.dst else 0;
      assert Unproven(s') <= s.pending.Keys + {a};
    } else {
      assert Unproven(s') <= Unproven(s);
    }
  }

  /** Sources that never echoed a cookie hold at most 256 responder states. */
  lemma {:induction false} UnprovenBounded(p: Policy, evs: seq<ServerEvent>)
    ensures |Unproven(Run(p, evs))| <= 256
  {
    hide Step;
    if evs != [] {
      var s := Run(p, evs[..|evs| - 1]);
      var s' := Run(p, evs);
      UnprovenBounded(p, evs[..|evs| - 1]);
      StepUnproven(p, s, evs[|evs| - 1]);
      if Unproven(s') <= Unproven(s) {
        TableBounds.SubsetSize(Unproven(s'), Unproven(s));
      } else {
        var a :| Unproven(s') <= s.pending.Keys + {a};
        TableBounds.SubsetSize(Unproven(s'), s.pending.Keys + {a});
        assert |s.pending.Keys| == |s.pending|;
      }
    }
  }

  // ---- Every admission under load was preceded by a challenge ---------------

  function Rotations(evs: seq<ServerEvent>): nat {
    if evs == [] then 0
    else Rotations(evs[..|evs| - 1]) + if evs[|evs| - 1].Rotate? then 1 else 0
  }

  lemma RouteIssues(p: Policy, s: Server, src: Addr, d: Dgram, load: bool, now: nat)
    ensures
      var out := Route(p, s, src, d, load, now);
      && out.server.epoch == s.epoch
      && forall c | c in out.server.issued && c !in s.issued ::
           c == Minted(s.epoch, src) && out.sent == Some(Output(src, CookieMsg(Some(c))))
  {
  }

  /** A cookie becomes known only by being sent, to its own source, in its own epoch. */
  lemma StepIssues(p: Policy, s: Server, ev: ServerEvent)
    ensures
      var out := Step(p, s, ev);
      && out.server.epoch == s.epoch + (if ev.Rotate? then 1 else 0)
      && forall c | c in out.server.issued && c !in s.issued ::
           c.Minted? && c.epoch == s.epoch && out.sent == Some(Output(c.src, CookieMsg(Some(c))))
  {
    hide Route;
    if ev.Arrive? {
      RouteIssues(p, s, ev.src, ev.d, ev.load, s.clock + ev.before);
    }
  }

  lemma {:induction false} EpochCounts(p: Policy, evs: seq<ServerEvent>)
    ensures Run(p, evs).epoch == Rotations(evs)
  {
    hide Step;
    if evs != [] {
      EpochCounts(p, evs[..|evs| - 1]);
      StepIssues(p, Run(p, evs[..|evs| - 1]), evs[|evs| - 1]);
    }
  }

  /** Event `j` of the run answers `src` with this cookie challenge. */
  predicate ChallengedAt(p: Policy, evs: seq<ServerEvent>, j: nat, cookie: Cookie)
    requires j < |evs|
  {
    && cookie.Minted?
    && Step(p, Run(p, evs[..j]), evs[j]).sent == Some(Output(cookie.src, CookieMsg(Some(cookie))))
    && cookie.epoch == Rotations(evs[..j])
  }

  lemma {:induction false} IssuedOrigin(p: Policy, evs: seq<ServerEvent>, cookie: Cookie) returns (j: nat)
    requires cookie in Run(p, evs).issued
    ensures j < |evs| && ChallengedAt(p, evs, j, cookie)
  {
    hide Step;
    assert evs != [];
    var n := |evs| - 1;
    var s := Run(p, evs[..n]);
    if cookie in s.issued {
      j := IssuedOrigin(p, evs[..n], cookie);
      assert evs[..n][..j] == evs[..j];
    } else {
      j := n;
      StepIssues(p, s, evs[n]);
      EpochCounts(p, evs[..n]);
    }
  }

  lemma {:induction false} RotationsSplit(evs: seq<ServerEvent>, j: nat)
    requires j <= |evs|
    ensures Rotations(evs) == Rotations(evs[..j]) + Rotations(evs[j..])
  {
    if j < |evs| {
      var n := |evs| - 1;
      RotationsSplit(evs[..n], j);
      assert evs[..n][..j] == evs[..j];
      assert evs[..n][j..] == evs[j..][..n - j];
    } else {
      assert evs[..j] == evs && evs[j..] == [];
    }
  }

  /** If event `i` admits `src` while the server is under effective load, an
      earlier event sent `src` a cookie, and the secret was rotated at most
      once in between. */
  lemma AdmissionNeedsChallenge(p: Policy, evs: seq<ServerEvent>, i: nat, src: Addr) returns (j: nat)
    requires i < |evs| && evs[i].Arrive?
    requires EffectiveLoad(Run(p, evs[..i]), evs[i].load)
    requires AnswersHs2(Step(p, Run(p, evs[..i]), evs[i]), src)
    ensures j < i
    ensures exists c: Cookie :: ChallengedAt(p, evs, j, c) && c.src == src
    ensures Rotations(evs[j..i]) <= 1
  {
    var s := Run(p, evs[..i]);
    var ev := evs[i];
    var cookie := ev.d.cookie.value;
    assert CookieVerifies(s.epoch, src, cookie) && cookie in s.issued && ev.src == src by {
      var now := s.clock + ev.before;
      assert AnswersHs2(Route(p, s, ev.src, ev.d, ev.load, now), src);
    }
    hide Step;
    j := IssuedOrigin(p, evs[..i], cookie);
    assert evs[..i][..j] == evs[..j];
    assert ChallengedAt(p, evs, j, cookie);
    EpochCounts(p, evs[..i]);
    RotationsSplit(evs[..i], j);
    assert evs[..i][j..] == evs[j..i];
  }

  /** A challenge stays good across exactly one rotation. */
  lemma CookieLifetime(p: Policy, evs: seq<ServerEvent>, j: nat, cookie: Cookie)
    requires j < |evs| && ChallengedAt(p, evs, j, cookie)
    ensures CookieVerifies(Run(p, evs).epoch, cookie.src, cookie) <==> Rotations(evs[j..]) <= 1
  {
    hide Step;
    EpochCounts(p, evs);
    RotationsSplit(evs, j);
  }

  /** What a first message is answered with, from the tables and the message alone:
      nothing when the peers are full or the message cannot be split; under load a
      cookie for its source, whatever else it holds, unless it brings a good one; then
      nothing if it is no first message or there is no place for it, and else a second
      message for a responder of its own. */
  lemma FirstMessageAnswered(p: Policy, s: Server, ev: ServerEvent)
    requires ev.Arrive? && Possible(s, ev) && (ev.d.Hs1? || ev.d.Hs1Malformed?)
    ensures
      Step(p, s, ev).sent
      == if |s.peers| >= 1024 || ev.d.Hs1Malformed? then None
         else if (ev.load || |s.pending| >= 256) && !(ev.d.cookie.Some? && CookieVerifies(s.epoch, ev.src, ev.d.cookie.value))
         then Some(Output(ev.src, CookieMsg(Some(Minted(s.epoch, ev.src)))))
         else if ev.d.msg1.BadMsg1? || (|s.pending| >= 2048 && ev.src !in s.pending) then None
         else Some(Output(ev.src, Hs2(Msg2(ev.d.msg1.initiator, s.nextResponder))))
  {
  }
}
