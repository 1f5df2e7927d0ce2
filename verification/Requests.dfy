/**
 Callers and the pump around the shared table of pending requests
 (src/client.rs, src/udp/client.rs), in the atomic steps in which they can
 interleave. Both transports use the same pump exit; they differ on the
 caller's side, where UDP retransmits on a timer and TCP waits.
 */
module Requests {
  import opened Common

  datatype Transport = Tcp | Udp

  const MAX_REQUEST_RETRIES: nat := 10

  datatype Response = Response(id: string, body: string)

  /** A one-shot channel as its receiver sees it. */
  datatype Slot = Open | Filled(resp: Response) | Dropped

  /** A one-shot channel: who waits on it, and whether it was put into the table
      only after the pump had drained the table. */
  datatype Token = Token(owner: nat, slot: Slot, late: bool)

  datatype Outcome = Answered(resp: Response) | Disconnected | TimedOut

  /** Where a call of `request` stands; `tries` counts the rounds before this one. */
  datatype CallPhase =
    | Ready(tries: nat)
    | Inserted(token: nat, tries: nat)
    | Waiting(token: nat, tries: nat)
    | SendFailed(token: nat)
    | Expired(token: nat, tries: nat)
    | Done(outcome: Outcome)

  datatype Caller = Caller(id: string, phase: CallPhase, transmissions: nat)

  /** The pump's exit, in order: out of the loop, table drained, senders dropped,
      outbound receiver dropped with the function's locals. */
  datatype PumpPhase = Running | Stopped | Drained | Released | Returned

  datatype Hand = Hand(token: nat, resp: Response)

  /** `hand`: a sender the pump has taken out of the table with its response.
      `drained`: the senders taken out by the drain and not yet dropped. */
  datatype State = State(
    kind: Transport, callers: seq<Caller>, pending: map<string, nat>, tokens: seq<Token>,
    pump: PumpPhase, hand: Option<Hand>, drained: set<nat>)

  function Fresh(kind: Transport): State {
    State(kind, [], map[], [], Running, None, {})
  }

  // ---- Steps ------------------------------------------------------------------

  datatype Step =
    | Call(id: string)
    | Insert(c: nat)
    | Send(c: nat)
    | CleanUp(c: nat)
    | Await(c: nat)
    | Timeout(c: nat)
    | RemoveStale(c: nat)
    | PumpResponse(resp: Response)
    | PumpDelivers
    | PumpStops
    | PumpDrains
    | PumpDrops
    | PumpReturns

  function SetPhase(s: State, c: nat, ph: CallPhase): State
    requires c < |s.callers|
  {
    s.(callers := s.callers[c := s.callers[c].(phase := ph)])
  }

  /** Dropping a sender closes the channel for its receiver. */
  function Drop(s: State, t: nat): State {
    if t < |s.tokens| && s.tokens[t].slot.Open? then s.(tokens := s.tokens[t := s.tokens[t].(slot := Dropped)]) else s
  }

  /** Take whatever is filed under an id out of the table and drop it. */
  function Remove(s: State, id: string): State {
    if id in s.pending then Drop(s.(pending := s.pending - {id}), s.pending[id]) else s
  }

  /** A new channel under the caller's id; one that was there is dropped. */
  function DoInsert(s: State, c: nat): State
    requires c < |s.callers| && s.callers[c].phase.Ready?
  {
    var id, t := s.callers[c].id, |s.tokens|;
    var late := s.pump.Drained? || s.pump.Released? || s.pump.Returned?;
    var s := Remove(s, id);
    SetPhase(s.(tokens := s.tokens + [Token(c, Open, late)], pending := s.pending[id := t]),
             c, Inserted(t, s.callers[c].phase.tries))
  }

  function DoSend(s: State, c: nat): State
    requires c < |s.callers| && s.callers[c].phase.Inserted?
  {
    var ph := s.callers[c].phase;
    if s.pump.Returned? then SetPhase(s, c, SendFailed(ph.token))
    else
      s.(callers := s.callers[c := s.callers[c].(phase := Waiting(ph.token, ph.tries),
                                                 transmissions := s.callers[c].transmissions + 1)])
  }

  function DoAwait(s: State, c: nat): State
    requires c < |s.callers| && s.callers[c].phase.Waiting? && s.callers[c].phase.token < |s.tokens|
  {
    match s.tokens[s.callers[c].phase.token].slot
    case Open => s
    case Filled(resp) => SetPhase(s, c, Done(Answered(resp)))
    case Dropped => SetPhase(s, c, Done(Disconnected))
  }

  function DoRemoveStale(s: State, c: nat): State
    requires c < |s.callers| && s.callers[c].phase.Expired?
  {
    var tries := s.callers[c].phase.tries;
    SetPhase(Remove(s, s.callers[c].id), c,
             if tries >= MAX_REQUEST_RETRIES then Done(TimedOut) else Ready(tries + 1))
  }

  predicate Enabled(s: State, step: Step) {
    match step
    case Call(_) => true
    case Insert(c) => c < |s.callers| && s.callers[c].phase.Ready?
    case Send(c) => c < |s.callers| && s.callers[c].phase.Inserted?
    case CleanUp(c) => c < |s.callers| && s.callers[c].phase.SendFailed?
    case Await(c) => c < |s.callers| && s.callers[c].phase.Waiting? && s.callers[c].phase.token < |s.tokens|
    case Timeout(c) =>
      && s.kind == Udp && c < |s.callers| && s.callers[c].phase.Waiting?
      && s.callers[c].phase.token < |s.tokens| && s.tokens[s.callers[c].phase.token].slot.Open?
    case RemoveStale(c) => c < |s.callers| && s.callers[c].phase.Expired?
    case PumpResponse(resp) => s.pump == Running && s.hand.None?
    case PumpDelivers => s.hand.Some? && s.hand.value.token < |s.tokens|
    case PumpStops => s.pump == Running && s.hand.None?
    case PumpDrains => s.pump == Stopped
    case PumpDrops => s.pump == Drained
    case PumpReturns => s.pump == Released
  }

  function Apply(s: State, step: Step): State {
    if !Enabled(s, step) then s
    else
      match step
      case Call(id) => s.(callers := s.callers + [Caller(id, Ready(0), 0)])
      case Insert(c) => DoInsert(s, c)
      case Send(c) => DoSend(s, c)
      case CleanUp(c) => SetPhase(Remove(s, s.callers[c].id), c, Done(Disconnected))
      case Await(c) => DoAwait(s, c)
      case Timeout(c) => SetPhase(s, c, Expired(s.callers[c].phase.token, s.callers[c].phase.tries))
      case RemoveStale(c) => DoRemoveStale(s, c)
      case PumpResponse(resp) =>
        if resp.id in s.pending then
          s.(pending := s.pending - {resp.id}, hand := Some(Hand(s.pending[resp.id], resp)))
        else s
      case PumpDelivers =>
        var t := s.hand.value.token;
        s.(tokens := s.tokens[t := s.tokens[t].(slot := Filled(s.hand.value.resp))], hand := None)
      case PumpStops => s.(pump := Stopped)
      case PumpDrains => s.(pump := Drained, drained := s.pending.Values, pending := map[])
      case PumpDrops => s.(pump := Released, drained := {}, tokens := DropAll(s.tokens, s.drained))
      case PumpReturns => s.(pump := Returned)
  }

  function DropAll(tokens: seq<Token>, gone: set<nat>): (r: seq<Token>)
    ensures |r| == |tokens|
    ensures forall t | 0 <= t < |tokens| ::
              r[t] == if t in gone && tokens[t].slot.Open? then tokens[t].(slot := Dropped) else tokens[t]
  {
    seq(|tokens|, t requires 0 <= t < |tokens| =>
      if t in gone && tokens[t].slot.Open? then tokens[t].(slot := Dropped) else tokens[t])
  }

  function Run(kind: Transport, steps: seq<Step>): State {
    if steps == [] then Fresh(kind) else Apply(Run(kind, steps[..|steps| - 1]), steps[|steps| - 1])
  }

  // ---- Invariant ----------------------------------------------------------------

  predicate Holds(ph: CallPhase, t: nat) {
    !ph.Ready? && !ph.Done? && ph.token == t
  }

  predicate PastDrain(s: State) {
    s.pump.Drained? || s.pump.Released? || s.pump.Returned?
  }

  /** Where the sender of an open channel is. */
  predicate Located(s: State, t: nat)
    requires t < |s.tokens| && s.tokens[t].owner < |s.callers|
  {
    var id := s.callers[s.tokens[t].owner].id;
    || (id in s.pending && s.pending[id] == t)
    || (s.hand.Some? && s.hand.value.token == t)
    || t in s.drained
  }

  predicate TokenOk(s: State, t: nat)
    requires t < |s.tokens|
  {
    && s.tokens[t].owner < |s.callers|
    && LateOk(s, t)
    && (s.tokens[t].slot.Open? ==> Located(s, t))
    && (s.tokens[t].slot.Filled? ==> s.tokens[t].slot.resp.id == s.callers[s.tokens[t].owner].id)
  }

  /** Some other call uses the same id. */
  predicate Shared(s: State, c: nat)
    requires c < |s.callers|
  {
    exists k | 0 <= k < |s.callers| && k != c :: s.callers[k].id == s.callers[c].id
  }

  /** A channel filed after the drain is nobody's to resolve: it closes under its
      caller only if another call with the same id pushes it out. */
  predicate LateOk(s: State, t: nat)
    requires t < |s.tokens| && s.tokens[t].owner < |s.callers|
  {
    s.tokens[t].late ==>
      && PastDrain(s) && t !in s.drained
      && (Holds(s.callers[s.tokens[t].owner].phase, t) && !s.tokens[t].slot.Open? ==> Shared(s, s.tokens[t].owner))
  }

  predicate CallerOk(s: State, c: nat)
    requires c < |s.callers|
  {
    var cl := s.callers[c];
    && (!cl.phase.Ready? && !cl.phase.Done? ==>
          cl.phase.token < |s.tokens| && s.tokens[cl.phase.token].owner == c)
    && (match cl.phase
        case Ready(tries) => tries <= 10 && cl.transmissions == tries
        case Inserted(_, tries) => tries <= 10 && cl.transmissions == tries
        case Waiting(_, tries) => tries <= 10 && cl.transmissions == tries + 1
        case Expired(_, tries) => tries <= 10 && cl.transmissions == tries + 1
        case SendFailed(_) => cl.transmissions <= 10
        case Done(_) => cl.transmissions <= 11)
    && (s.kind == Tcp ==> cl.transmissions <= 1 && (cl.phase.Ready? ==> cl.phase.tries == 0)
                          && !cl.phase.Expired? && (cl.phase.Inserted? ==> cl.transmissions == 0))
    && (cl.phase.Done? && cl.phase.outcome.Answered? ==> cl.phase.outcome.resp.id == cl.id)
  }

  /** What is filed in the table is open, filed under its owner's id, and its
      owner's current channel; after the drain, it was filed after the drain. */
  predicate EntryOk(s: State, id: string)
    requires id in s.pending
  {
    var t := s.pending[id];
    && t < |s.tokens| && s.tokens[t].slot.Open?
    && s.tokens[t].owner < |s.callers| && s.callers[s.tokens[t].owner].id == id
    && Holds(s.callers[s.tokens[t].owner].phase, t)
    && (PastDrain(s) ==> s.tokens[t].late)
  }

  predicate HandsOk(s: State) {
    && (s.hand.Some? ==>
          && s.pump == Running
          && s.hand.value.token < |s.tokens|
          && s.tokens[s.hand.value.token].slot.Open?
          && s.tokens[s.hand.value.token].owner < |s.callers|
          && s.hand.value.resp.id == s.callers[s.tokens[s.hand.value.token].owner].id
          && forall i | i in s.pending :: s.pending[i] != s.hand.value.token)
    && (s.drained != {} ==> s.pump == Drained)
    && (forall t | t in s.drained :: t < |s.tokens|)
    && (forall i | i in s.pending :: s.pending[i] !in s.drained)
  }

  predicate Inv(s: State) {
    && (forall t | 0 <= t < |s.tokens| :: TokenOk(s, t))
    && (forall c | 0 <= c < |s.callers| :: CallerOk(s, c))
    && (forall id | id in s.pending :: EntryOk(s, id))
    && HandsOk(s)
  }

  lemma SharedStays(s: State, s': State, c: nat)
    requires |s.callers| <= |s'.callers| && c < |s.callers|
    requires forall k | 0 <= k < |s.callers| :: s'.callers[k].id == s.callers[k].id
    ensures Shared(s, c) ==> Shared(s', c)
  {
    if Shared(s, c) {
      var k :| 0 <= k < |s.callers| && k != c && s.callers[k].id == s.callers[c].id;
      assert s'.callers[k].id == s'.callers[c].id;
    }
  }

  lemma CallKeeps(s: State, id: string)
    requires Inv(s)
    ensures Inv(s.(callers := s.callers + [Caller(id, Ready(0), 0)]))
  {
    var s' := s.(callers := s.callers + [Caller(id, Ready(0), 0)]);
    forall t | 0 <= t < |s.tokens| ensures TokenOk(s', t) {
      assert TokenOk(s, t);
      SharedStays(s, s', s.tokens[t].owner);
    }
    forall c | 0 <= c < |s'.callers| ensures CallerOk(s', c) { assert c < |s.callers| ==> CallerOk(s, c); }
    forall i | i in s.pending ensures EntryOk(s', i) { assert EntryOk(s, i); }
  }

  lemma RemoveToken(s: State, c: nat, ph: CallPhase, t: nat)
    requires Inv(s) && c < |s.callers| && t < |s.tokens| && (ph.Ready? || ph.Done?)
    ensures TokenOk(SetPhase(Remove(s, s.callers[c].id), c, ph), t)
  {
    hide CallerOk;
    var id := s.callers[c].id;
    var s' := SetPhase(Remove(s, id), c, ph);
    assert TokenOk(s, t);
    SharedStays(s, s', s.tokens[t].owner);
    if id in s.pending && s.pending[id] == t {
      assert EntryOk(s, id);
      assert s'.callers[c].id == s'.callers[s.tokens[t].owner].id;
    }
  }

  /** Removing an entry, by a caller that will not hold its channel afterwards. */
  lemma RemoveKeeps(s: State, c: nat, ph: CallPhase)
    requires Inv(s) && c < |s.callers|
    requires CallerOk(SetPhase(s, c, ph), c)
    requires ph.Ready? || ph.Done?
    ensures Inv(SetPhase(Remove(s, s.callers[c].id), c, ph))
    ensures s.callers[c].id !in SetPhase(Remove(s, s.callers[c].id), c, ph).pending
  {
    var id := s.callers[c].id;
    var s' := SetPhase(Remove(s, id), c, ph);
    forall t | 0 <= t < |s'.tokens| ensures TokenOk(s', t) {
      RemoveToken(s, c, ph, t);
    }
    hide TokenOk;
    forall k | 0 <= k < |s'.callers| ensures CallerOk(s', k) { assert CallerOk(s, k); }
    forall i | i in s'.pending ensures EntryOk(s', i) {
      assert EntryOk(s, i);
      assert id in s.pending ==> EntryOk(s, id);
    }
  }

  /** A caller moves on without touching the table. */
  lemma PhaseKeeps(s: State, c: nat, ph: CallPhase, transmissions: nat)
    requires Inv(s) && c < |s.callers|
    requires var s' := s.(callers := s.callers[c := Caller(s.callers[c].id, ph, transmissions)]); CallerOk(s', c)
    requires forall t | 0 <= t < |s.tokens| && Holds(s.callers[c].phase, t) :: Holds(ph, t) || !s.tokens[t].slot.Open?
    requires forall t | 0 <= t < |s.tokens| && Holds(ph, t) :: Holds(s.callers[c].phase, t)
    ensures Inv(s.(callers := s.callers[c := Caller(s.callers[c].id, ph, transmissions)]))
  {
    var s' := s.(callers := s.callers[c := Caller(s.callers[c].id, ph, transmissions)]);
    forall t | 0 <= t < |s'.tokens| ensures TokenOk(s', t) {
      assert TokenOk(s, t);
      SharedStays(s, s', s.tokens[t].owner);
    }
    forall k | 0 <= k < |s'.callers| ensures CallerOk(s', k) { assert CallerOk(s, k); }
    forall i | i in s'.pending ensures EntryOk(s', i) { assert EntryOk(s, i); }
  }

  /** A fresh channel goes into the table. */
  lemma AddKeeps(s: State, c: nat)
    requires Inv(s) && c < |s.callers| && s.callers[c].phase.Ready? && s.callers[c].id !in s.pending
    ensures
      var t := |s.tokens|;
      Inv(SetPhase(s.(tokens := s.tokens + [Token(c, Open, PastDrain(s))], pending := s.pending[s.callers[c].id := t]),
                   c, Inserted(t, s.callers[c].phase.tries)))
  {
    var n := |s.tokens|;
    var s' := SetPhase(s.(tokens := s.tokens + [Token(c, Open, PastDrain(s))], pending := s.pending[s.callers[c].id := n]),
                       c, Inserted(n, s.callers[c].phase.tries));
    forall t | 0 <= t < |s'.tokens| ensures TokenOk(s', t) {
      if t < n {
        assert TokenOk(s, t);
        SharedStays(s, s', s.tokens[t].owner);
      }
    }
    forall k | 0 <= k < |s'.callers| ensures CallerOk(s', k) { assert CallerOk(s, k); }
    forall i | i in s'.pending ensures EntryOk(s', i) { assert i in s.pending ==> EntryOk(s, i); }
  }

  lemma InsertKeeps(s: State, c: nat)
    requires Inv(s) && c < |s.callers| && s.callers[c].phase.Ready?
    ensures Inv(DoInsert(s, c))
  {
    assert CallerOk(s, c);
    var ph := s.callers[c].phase;
    var s1 := Remove(s, s.callers[c].id);
    assert SetPhase(s1, c, ph) == s1;
    assert SetPhase(s, c, ph) == s;
    RemoveKeeps(s, c, ph);
    AddKeeps(s1, c);
  }

  lemma ResponseKeeps(s: State, resp: Response)
    requires Inv(s) && s.pump == Running && s.hand.None? && resp.id in s.pending
    ensures Inv(s.(pending := s.pending - {resp.id}, hand := Some(Hand(s.pending[resp.id], resp))))
  {
    var s' := s.(pending := s.pending - {resp.id}, hand := Some(Hand(s.pending[resp.id], resp)));
    forall t | 0 <= t < |s'.tokens| ensures TokenOk(s', t) { assert TokenOk(s, t); }
    forall k | 0 <= k < |s'.callers| ensures CallerOk(s', k) { assert CallerOk(s, k); }
    forall i | i in s'.pending ensures EntryOk(s', i) { assert EntryOk(s, i); }
    assert EntryOk(s, resp.id);
  }

  lemma DeliverKeeps(s: State)
    requires Inv(s) && s.hand.Some?
    ensures Inv(Apply(s, PumpDelivers))
  {
    var s' := Apply(s, PumpDelivers);
    forall t | 0 <= t < |s'.tokens| ensures TokenOk(s', t) { assert TokenOk(s, t); }
    forall k | 0 <= k < |s'.callers| ensures CallerOk(s', k) { assert CallerOk(s, k); }
    forall i | i in s'.pending ensures EntryOk(s', i) { assert EntryOk(s, i); }
  }

  lemma DrainKeeps(s: State)
    requires Inv(s) && s.pump == Stopped
    ensures Inv(s.(pump := Drained, drained := s.pending.Values, pending := map[]))
  {
    var s' := s.(pump := Drained, drained := s.pending.Values, pending := map[]);
    forall t | 0 <= t < |s'.tokens| ensures TokenOk(s', t) { assert TokenOk(s, t); }
    forall k | 0 <= k < |s'.callers| ensures CallerOk(s', k) { assert CallerOk(s, k); }
    forall t | t in s'.drained ensures t < |s.tokens| {
      var i :| i in s.pending && s.pending[i] == t;
      assert EntryOk(s, i);
    }
  }

  lemma DropKeeps(s: State)
    requires Inv(s) && s.pump == Drained
    ensures Inv(s.(pump := Released, drained := {}, tokens := DropAll(s.tokens, s.drained)))
  {
    var s' := s.(pump := Released, drained := {}, tokens := DropAll(s.tokens, s.drained));
    forall t | 0 <= t < |s'.tokens| ensures TokenOk(s', t) { assert TokenOk(s, t); }
    forall k | 0 <= k < |s'.callers| ensures CallerOk(s', k) { assert CallerOk(s, k); }
    forall i | i in s'.pending ensures EntryOk(s', i) { assert EntryOk(s, i); }
  }

  lemma ApplyKeeps(s: State, step: Step)
    requires Inv(s)
    ensures Inv(Apply(s, step))
  {
    if Enabled(s, step) {
      match step
      case Call(id) => CallKeeps(s, id);
      case Insert(c) => InsertKeeps(s, c);
      case Send(c) => SendKeeps(s, c);
      case CleanUp(c) =>
        assert CallerOk(s, c);
        RemoveKeeps(s, c, Done(Disconnected));
      case Await(c) => AwaitKeeps(s, c);
      case Timeout(c) => TimeoutKeeps(s, c);
      case RemoveStale(c) => StaleKeeps(s, c);
      case PumpResponse(resp) =>
        if resp.id in s.pending { ResponseKeeps(s, resp); }
      case PumpDelivers => DeliverKeeps(s);
      case PumpStops => StopKeeps(s, Stopped);
      case PumpDrains => DrainKeeps(s);
      case PumpDrops => DropKeeps(s);
      case PumpReturns => StopKeeps(s, Returned);
    }
  }

  lemma SendKeeps(s: State, c: nat)
    requires Inv(s) && c < |s.callers| && s.callers[c].phase.Inserted?
    ensures Inv(DoSend(s, c))
  {
    assert CallerOk(s, c);
    var cl := DoSend(s, c).callers[c];
    PhaseKeeps(s, c, cl.phase, cl.transmissions);
  }

  lemma AwaitKeeps(s: State, c: nat)
    requires Inv(s) && Enabled(s, Await(c))
    ensures Inv(DoAwait(s, c))
  {
    assert CallerOk(s, c) && TokenOk(s, s.callers[c].phase.token);
    if !s.tokens[s.callers[c].phase.token].slot.Open? {
      var cl := DoAwait(s, c).callers[c];
      PhaseKeeps(s, c, cl.phase, cl.transmissions);
    }
  }

  lemma TimeoutKeeps(s: State, c: nat)
    requires Inv(s) && Enabled(s, Timeout(c))
    ensures Inv(Apply(s, Timeout(c)))
  {
    assert CallerOk(s, c);
    PhaseKeeps(s, c, Expired(s.callers[c].phase.token, s.callers[c].phase.tries), s.callers[c].transmissions);
  }

  lemma StaleKeeps(s: State, c: nat)
    requires Inv(s) && c < |s.callers| && s.callers[c].phase.Expired?
    ensures Inv(DoRemoveStale(s, c))
  {
    assert CallerOk(s, c);
    RemoveKeeps(s, c, DoRemoveStale(s, c).callers[c].phase);
  }

  lemma StopKeeps(s: State, pump: PumpPhase)
    requires Inv(s) && s.hand.None? && s.drained == {}
    requires (s.pump == Running && pump == Stopped) || (s.pump == Released && pump == Returned)
    ensures Inv(s.(pump := pump))
  {
    var s' := s.(pump := pump);
    forall t | 0 <= t < |s'.tokens| ensures TokenOk(s', t) { assert TokenOk(s, t); }
    forall k | 0 <= k < |s'.callers| ensures CallerOk(s', k) { assert CallerOk(s, k); }
    forall i | i in s'.pending ensures EntryOk(s', i) { assert EntryOk(s, i); }
  }

  lemma {:induction false} RunInv(kind: Transport, steps: seq<Step>)
    ensures Inv(Run(kind, steps))
  {
    hide Apply, Inv;
    if steps != [] {
      RunInv(kind, steps[..|steps| - 1]);
      ApplyKeeps(Run(kind, steps[..|steps| - 1]), steps[|steps| - 1]);
    } else {
      FreshOk(kind);
    }
  }

  lemma FreshOk(kind: Transport)
    ensures Inv(Fresh(kind))
  {
  }

  // ---- Results for both transports -------------------------------------------------

  /** Every answer a caller gets carries the id of its request; TCP transmits it
      once at most, UDP eleven times at most. */
  lemma AnswersMatch(kind: Transport, steps: seq<Step>, c: nat)
    requires c < |Run(kind, steps).callers|
    ensures
      var cl := Run(kind, steps).callers[c];
      && (cl.phase.Done? && cl.phase.outcome.Answered? ==> cl.phase.outcome.resp.id == cl.id)
      && cl.transmissions <= (if kind == Tcp then 1 else 11)
  {
    RunInv(kind, steps);
    KindStays(kind, steps);
    assert CallerOk(Run(kind, steps), c);
  }

  lemma {:induction false} KindStays(kind: Transport, steps: seq<Step>)
    ensures Run(kind, steps).kind == kind
  {
    if steps != [] {
      KindStays(kind, steps[..|steps| - 1]);
    }
  }

  /** A call returns once: a finished one never changes again. */
  lemma DoneIsFinal(s: State, step: Step, c: nat)
    requires c < |s.callers| && s.callers[c].phase.Done?
    ensures c < |Apply(s, step).callers| && Apply(s, step).callers[c] == s.callers[c]
  {
  }

  predicate UniqueId(s: State, c: nat)
    requires c < |s.callers|
  {
    forall k | 0 <= k < |s.callers| && k != c :: s.callers[k].id != s.callers[c].id
  }

  /** A returned call leaves nothing of its own in the table, even if the pump
      drained the table and exited on the way; with a unique id, nothing under
      its id. */
  lemma NothingLeftBehind(kind: Transport, steps: seq<Step>, c: nat)
    requires c < |Run(kind, steps).callers| && Run(kind, steps).callers[c].phase.Done?
    ensures
      var s := Run(kind, steps);
      && (forall id | id in s.pending :: s.pending[id] < |s.tokens| && s.tokens[s.pending[id]].owner != c)
      && (UniqueId(s, c) ==> s.callers[c].id !in s.pending)
  {
    RunInv(kind, steps);
    var s := Run(kind, steps);
    forall id | id in s.pending ensures s.pending[id] < |s.tokens| && s.tokens[s.pending[id]].owner != c {
      assert EntryOk(s, id);
    }
    if s.callers[c].id in s.pending {
      assert EntryOk(s, s.callers[c].id);
    }
  }

  // ---- A response reaches its caller ------------------------------------------------

  predicate OwnStep(step: Step, c: nat) {
    step in {Insert(c), Send(c), CleanUp(c), Await(c), Timeout(c), RemoveStale(c)}
  }

  /** Caller `c` waits on channel `t`, and `resp` is in it or in the pump's hand for it. */
  predicate Promised(s: State, c: nat, t: nat, resp: Response) {
    && c < |s.callers| && s.callers[c].phase.Waiting? && s.callers[c].phase.token == t < |s.tokens|
    && (s.tokens[t].slot == Filled(resp) || (s.tokens[t].slot.Open? && s.hand == Some(Hand(t, resp))))
  }

  /** Nobody moves a caller but itself. */
  lemma OthersLeave(s: State, step: Step, c: nat)
    requires c < |s.callers| && !OwnStep(step, c)
    ensures c < |Apply(s, step).callers| && Apply(s, step).callers[c] == s.callers[c]
  {
  }

  /** A channel that is not filed, and not drained while open, changes only by a delivery. */
  lemma ChannelStands(s: State, step: Step, t: nat)
    requires t < |s.tokens| && (forall id | id in s.pending :: s.pending[id] != t)
    requires s.tokens[t].slot.Open? ==> t !in s.drained
    requires !(step == PumpDelivers && s.hand.Some? && s.hand.value.token == t)
    ensures t < |Apply(s, step).tokens| && Apply(s, step).tokens[t] == s.tokens[t]
  {
  }

  lemma PromiseStands(s: State, step: Step, c: nat, t: nat, resp: Response)
    requires Inv(s) && Promised(s, c, t, resp) && !OwnStep(step, c)
    ensures Promised(Apply(s, step), c, t, resp)
    ensures step == PumpDelivers || s.tokens[t].slot.Filled? ==> Apply(s, step).tokens[t].slot == Filled(resp)
  {
    forall id | id in s.pending ensures s.pending[id] != t {
      assert EntryOk(s, id);
    }
    assert HandsOk(s);
    if step == PumpDelivers && s.tokens[t].slot.Open? {
      hide Inv, CallerOk, TokenOk;
    } else {
      hide Inv, Apply;
      OthersLeave(s, step, c);
      ChannelStands(s, step, t);
      if s.hand.Some? && step != PumpDelivers {
        HandStays(s, step);
      }
    }
  }

  /** Take any run in which the pump is free and caller `c` waits on the channel filed
      under its id. If a response with that id comes in, then, whatever everybody else
      does from there on, it is on its way to `c`; once the pump has delivered it, `c`
      has it as soon as it looks. */
  lemma {:induction false} ResponseReaches(kind: Transport, steps: seq<Step>, resp: Response, more: seq<Step>, c: nat)
    requires
      var s := Run(kind, steps);
      && s.pump == Running && s.hand.None? && c < |s.callers| && s.callers[c].phase.Waiting?
      && resp.id == s.callers[c].id && resp.id in s.pending && s.pending[resp.id] == s.callers[c].phase.token
    requires forall i | 0 <= i < |more| :: !OwnStep(more[i], c)
    ensures
      var s' := Run(kind, steps + [PumpResponse(resp)] + more);
      && Promised(s', c, Run(kind, steps).callers[c].phase.token, resp)
      && (PumpDelivers in more ==> Apply(s', Await(c)).callers[c].phase == Done(Answered(resp)))
      && (PumpDelivers !in more ==> Enabled(s', PumpDelivers))
  {
    var t := Run(kind, steps).callers[c].phase.token;
    ResponseStands(kind, steps, resp, more, c, t);
  }

  lemma {:induction false} ResponseStands(kind: Transport, steps: seq<Step>, resp: Response, more: seq<Step>, c: nat, t: nat)
    requires
      var s := Run(kind, steps);
      && s.pump == Running && s.hand.None? && c < |s.callers| && s.callers[c].phase.Waiting?
      && resp.id == s.callers[c].id && resp.id in s.pending && s.pending[resp.id] == t == s.callers[c].phase.token
    requires forall i | 0 <= i < |more| :: !OwnStep(more[i], c)
    ensures
      var s' := Run(kind, steps + [PumpResponse(resp)] + more);
      && Promised(s', c, t, resp)
      && (PumpDelivers in more ==> s'.tokens[t].slot == Filled(resp))
      && (PumpDelivers !in more ==> s'.hand == Some(Hand(t, resp)))
  {
    hide Run, Inv, Apply;
    var base := steps + [PumpResponse(resp)];
    if more == [] {
      assert base + more == base;
      RunInv(kind, steps);
      RunThen(kind, steps, PumpResponse(resp));
      ResponseTaken(Run(kind, steps), resp, c, t);
    } else {
      var n := |more| - 1;
      ResponseStands(kind, steps, resp, more[..n], c, t);
      assert base + more == base + more[..n] + [more[n]];
      var s := Run(kind, base + more[..n]);
      RunThen(kind, base + more[..n], more[n]);
      RunInv(kind, base + more[..n]);
      assert more == more[..n] + [more[n]];
      if more[n] != PumpDelivers && s.hand.Some? {
        HandStays(s, more[n]);
      }
      PromiseStands(s, more[n], c, t, resp);
    }
  }

  lemma ResponseTaken(s: State, resp: Response, c: nat, t: nat)
    requires Inv(s) && s.pump == Running && s.hand.None? && c < |s.callers| && s.callers[c].phase.Waiting?
    requires resp.id == s.callers[c].id && resp.id in s.pending && s.pending[resp.id] == t == s.callers[c].phase.token
    ensures Promised(Apply(s, PumpResponse(resp)), c, t, resp) && Apply(s, PumpResponse(resp)).hand == Some(Hand(t, resp))
  {
    assert EntryOk(s, resp.id);
  }

  /** Only a delivery empties the pump's hand. */
  lemma HandStays(s: State, step: Step)
    requires s.hand.Some? && step != PumpDelivers
    ensures Apply(s, step).hand == s.hand
  {
  }

  // ---- Why a call may end without an answer -----------------------------------------------

  /** The pump has drained the table, or another call uses the same id. */
  predicate Excused(s: State, c: nat)
    requires c < |s.callers|
  {
    PastDrain(s) || Shared(s, c)
  }

  predicate ClosedForCause(s: State, t: nat)
    requires t < |s.tokens|
  {
    var o := s.tokens[t].owner;
    o < |s.callers| && Holds(s.callers[o].phase, t) && s.tokens[t].slot.Dropped? ==> Excused(s, o)
  }

  predicate EndedForCause(s: State, c: nat)
    requires c < |s.callers|
  {
    s.callers[c].phase.SendFailed? || s.callers[c].phase == Done(Disconnected) ==> Excused(s, c)
  }

  predicate CausesOk(s: State) {
    && (forall t | 0 <= t < |s.tokens| :: ClosedForCause(s, t))
    && (forall c | 0 <= c < |s.callers| :: EndedForCause(s, c))
  }

  lemma ExcuseStands(s: State, step: Step, c: nat)
    requires c < |s.callers| && Excused(s, c)
    ensures c < |Apply(s, step).callers| && Excused(Apply(s, step), c)
  {
    CallersGrow(s, step);
    DrainIsFinal(s, step);
    hide Apply;
    SharedStays(s, Apply(s, step), c);
  }

  lemma DrainIsFinal(s: State, step: Step)
    ensures PastDrain(s) ==> PastDrain(Apply(s, step))
  {
  }

  /** A channel that a caller still holds closes by the drain, or by another call that
      uses its id. */
  lemma ClosesForCause(s: State, step: Step, t: nat)
    requires Inv(s) && CausesOk(s) && t < |Apply(s, step).tokens|
    ensures ClosedForCause(Apply(s, step), t)
  {
    hide CallerOk, TokenOk;
    var s' := Apply(s, step);
    CallersGrow(s, step);
    if t < |s.tokens| {
      TokensStay(s, step, t);
      var o := s.tokens[t].owner;
      if o < |s.callers| && Holds(s'.callers[o].phase, t) && s'.tokens[t].slot.Dropped? {
        NewHolder(s, step, t);
        if s.tokens[t].slot.Dropped? {
          assert ClosedForCause(s, t);
          ExcuseStands(s, step, o);
        } else {
          WhoCloses(s, step, t);
        }
      }
    }
  }

  lemma TokensStay(s: State, step: Step, t: nat)
    requires t < |s.tokens|
    ensures t < |Apply(s, step).tokens| && Apply(s, step).tokens[t].owner == s.tokens[t].owner
  {
  }

  /** A caller comes to hold a channel only by filing it. */
  lemma NewHolder(s: State, step: Step, t: nat)
    requires t < |s.tokens| && s.tokens[t].owner < |s.callers|
    requires Holds(Apply(s, step).callers[s.tokens[t].owner].phase, t)
    ensures Holds(s.callers[s.tokens[t].owner].phase, t)
  {
  }

  lemma WhoCloses(s: State, step: Step, t: nat)
    requires Inv(s) && t < |s.tokens| && s.tokens[t].owner < |s.callers| && !s.tokens[t].slot.Dropped?
    requires t < |Apply(s, step).tokens| && Apply(s, step).tokens[t].slot.Dropped?
    requires Holds(Apply(s, step).callers[s.tokens[t].owner].phase, t)
    ensures Excused(Apply(s, step), s.tokens[t].owner)
  {
    hide CallerOk, TokenOk;
    var s', o := Apply(s, step), s.tokens[t].owner;
    CallersGrow(s, step);
    if step.Insert? || step.CleanUp? || step.RemoveStale? {
      var id := s.callers[step.c].id;
      assert id in s.pending && s.pending[id] == t;
      assert EntryOk(s, id);
      assert s'.callers[step.c].id == s'.callers[o].id;
    }
  }

  lemma EndsForCause(s: State, step: Step, c: nat)
    requires Inv(s) && CausesOk(s) && c < |Apply(s, step).callers|
    ensures EndedForCause(Apply(s, step), c)
  {
    hide TokenOk, EntryOk;
    CallersGrow(s, step);
    if c < |s.callers| {
      assert EndedForCause(s, c) && CallerOk(s, c);
      if Excused(s, c) {
        ExcuseStands(s, step, c);
      } else if step == Await(c) && s.callers[c].phase.Waiting? && s.callers[c].phase.token < |s.tokens| {
        assert ClosedForCause(s, s.callers[c].phase.token);
      }
    }
  }

  lemma {:induction false} CausesHold(kind: Transport, steps: seq<Step>)
    ensures CausesOk(Run(kind, steps))
  {
    hide Apply, ClosedForCause, EndedForCause, Inv;
    if steps != [] {
      var n := |steps| - 1;
      var s := Run(kind, steps[..n]);
      RunInv(kind, steps[..n]);
      CausesHold(kind, steps[..n]);
      forall t | 0 <= t < |Apply(s, steps[n]).tokens| ensures ClosedForCause(Apply(s, steps[n]), t) {
        ClosesForCause(s, steps[n], t);
      }
      forall c | 0 <= c < |Apply(s, steps[n]).callers| ensures EndedForCause(Apply(s, steps[n]), c) {
        EndsForCause(s, steps[n], c);
      }
    }
  }

  /** In every run a call ends in Disconnected only if the pump has drained the table
      or another call uses its id. */
  lemma DisconnectedForCause(kind: Transport, steps: seq<Step>, c: nat)
    requires c < |Run(kind, steps).callers| && Run(kind, steps).callers[c].phase == Done(Disconnected)
    ensures PastDrain(Run(kind, steps)) || Shared(Run(kind, steps), c)
  {
    hide Run;
    CausesHold(kind, steps);
    assert EndedForCause(Run(kind, steps), c);
  }

  /** And in TimedOut only over UDP, after eleven transmissions. */
  lemma {:induction false} TimedOutAfterAll(kind: Transport, steps: seq<Step>, c: nat)
    requires c < |Run(kind, steps).callers| && Run(kind, steps).callers[c].phase == Done(TimedOut)
    ensures kind == Udp && Run(kind, steps).callers[c].transmissions == 11
  {
    hide Apply;
    var n := |steps| - 1;
    var s := Run(kind, steps[..n]);
    RunInv(kind, steps[..n]);
    KindStays(kind, steps[..n]);
    if c < |s.callers| {
      assert CallerOk(s, c);
      if s.callers[c].phase == Done(TimedOut) {
        TimedOutAfterAll(kind, steps[..n], c);
      }
      if !OwnStep(steps[n], c) {
        OthersLeave(s, steps[n], c);
      } else {
        TimesOutLast(s, steps[n], c);
      }
    } else {
      NewCaller(s, steps[n], c);
    }
  }

  lemma TimesOutLast(s: State, step: Step, c: nat)
    requires c < |s.callers| && CallerOk(s, c) && OwnStep(step, c)
    ensures
      && c < |Apply(s, step).callers|
      && (Apply(s, step).callers[c].phase == Done(TimedOut) ==>
            || (s.callers[c].phase == Done(TimedOut) && Apply(s, step).callers[c] == s.callers[c])
            || (s.kind == Udp && Apply(s, step).callers[c].transmissions == 11))
  {
  }

  // ---- After the pump has exited ----------------------------------------------------

  /** A request that was filed before the drain is resolved once the pump is
      gone: its answer, or Disconnected, is there for the taking. */
  lemma FiledBeforeDrainResolved(kind: Transport, steps: seq<Step>, c: nat)
    requires
      var s := Run(kind, steps);
      && s.pump == Returned && c < |s.callers| && s.callers[c].phase.Waiting?
      && s.callers[c].phase.token < |s.tokens| && !s.tokens[s.callers[c].phase.token].late
    ensures
      var s := Run(kind, steps);
      var ph := Apply(s, Await(c)).callers[c].phase;
      ph.Done? && (ph.outcome == Disconnected || (ph.outcome.Answered? && ph.outcome.resp.id == s.callers[c].id))
  {
    RunInv(kind, steps);
    var s := Run(kind, steps);
    assert CallerOk(s, c) && TokenOk(s, s.callers[c].phase.token);
    assert s.callers[c].id in s.pending ==> EntryOk(s, s.callers[c].id);
  }

  /** With a unique id, a call that is still waiting when the pump is gone is
      unresolved exactly if it was filed after the drain. */
  lemma UnresolvedIffLate(kind: Transport, steps: seq<Step>, c: nat)
    requires
      var s := Run(kind, steps);
      && s.pump == Returned && c < |s.callers| && s.callers[c].phase.Waiting?
      && s.callers[c].phase.token < |s.tokens| && UniqueId(s, c)
    ensures
      var s := Run(kind, steps);
      var token := s.tokens[s.callers[c].phase.token];
      token.slot.Open? <==> token.late
  {
    RunInv(kind, steps);
    var s := Run(kind, steps);
    var t := s.callers[c].phase.token;
    assert CallerOk(s, c) && TokenOk(s, t) && LateOk(s, t);
    assert !Shared(s, c);
    assert s.callers[c].id in s.pending ==> EntryOk(s, s.callers[c].id);
  }

  /** A send goes through as long as the pump has not gone, drained table or not. */
  lemma SendUntilExit(s: State, c: nat)
    requires c < |s.callers| && s.callers[c].phase.Inserted? && s.pump != Returned
    ensures
      var cl, cl' := s.callers[c], Apply(s, Send(c)).callers[c];
      cl'.phase == Waiting(cl.phase.token, cl.phase.tries) && cl'.transmissions == cl.transmissions + 1
  {
  }

  /** A request that tries to send after the pump is gone gets Disconnected. */
  lemma SendAfterExitDisconnects(s: State, c: nat)
    requires s.pump == Returned && c < |s.callers| && s.callers[c].phase.Inserted?
    ensures
      var s' := Apply(Apply(s, Send(c)), CleanUp(c));
      c < |s'.callers| && s'.callers[c].phase == Done(Disconnected) && s.callers[c].id !in s'.pending
  {
  }

  /** The one schedule TCP does not resolve: filed after the drain, sent before
      the receiver went. Whatever happens next, with its id unique, the call
      neither returns nor leaves the table. */
  lemma {:induction false} FiledAfterDrainHangs(steps: seq<Step>, more: seq<Step>, c: nat)
    requires
      var s := Run(Tcp, steps);
      && s.pump == Returned && c < |s.callers| && s.callers[c].phase.Waiting?
      && s.callers[c].phase.token < |s.tokens| && s.tokens[s.callers[c].phase.token].late && UniqueId(s, c)
    requires c < |Run(Tcp, steps + more).callers| ==> UniqueId(Run(Tcp, steps + more), c)
    ensures
      var s, s' := Run(Tcp, steps), Run(Tcp, steps + more);
      && c < |s'.callers| && s'.callers[c] == s.callers[c] && s'.pump == Returned
      && s.callers[c].phase.token < |s'.tokens| && s'.tokens[s.callers[c].phase.token].slot.Open?
  {
    hide Apply, Inv;
    var s := Run(Tcp, steps);
    if more == [] {
      assert steps + more == steps;
      UnresolvedIffLate(Tcp, steps, c);
    } else {
      var all := steps + more;
      assert all[..|all| - 1] == steps + more[..|more| - 1];
      var s1 := Run(Tcp, all[..|all| - 1]);
      CallersGrow(s1, more[|more| - 1]);
      FiledAfterDrainHangs(steps, more[..|more| - 1], c);
      RunInv(Tcp, all[..|all| - 1]);
      KindStays(Tcp, all[..|all| - 1]);
      HangStep(s1, more[|more| - 1], c);
    }
  }

  lemma RunThen(kind: Transport, steps: seq<Step>, step: Step)
    ensures Run(kind, steps + [step]) == Apply(Run(kind, steps), step)
  {
    assert (steps + [step])[..|steps|] == steps;
  }

  lemma DrainedUnfiled(id: string) returns (steps: seq<Step>)
    ensures Run(Tcp, steps) == State(Tcp, [Caller(id, Ready(0), 0)], map[], [], Drained, None, {})
  {
    hide Run;
    FreshRun(Tcp);
    RunThen(Tcp, [], Call(id));
    RunThen(Tcp, [] + [Call(id)], PumpStops);
    RunThen(Tcp, [] + [Call(id)] + [PumpStops], PumpDrains);
    steps := [] + [Call(id)] + [PumpStops] + [PumpDrains];
  }

  lemma FiledAfterDrain(id: string) returns (steps: seq<Step>)
    ensures
      Run(Tcp, steps)
      == State(Tcp, [Caller(id, Waiting(0, 0), 1)], map[id := 0], [Token(0, Open, true)], Drained, None, {})
  {
    hide Run;
    steps := DrainedUnfiled(id);
    RunThen(Tcp, steps, Insert(0));
    RunThen(Tcp, steps + [Insert(0)], Send(0));
    steps := steps + [Insert(0)] + [Send(0)];
  }

  /** That schedule exists, for any id. */
  lemma HangReachable(id: string) returns (steps: seq<Step>)
    ensures
      var s := Run(Tcp, steps);
      && s.pump == Returned && |s.callers| == 1 && s.callers[0] == Caller(id, Waiting(0, 0), 1)
      && s.tokens == [Token(0, Open, true)] && s.pending == map[id := 0]
  {
    hide Run;
    steps := FiledAfterDrain(id);
    RunThen(Tcp, steps, PumpDrops);
    RunThen(Tcp, steps + [PumpDrops], PumpReturns);
    steps := steps + [PumpDrops] + [PumpReturns];
  }

  lemma FreshRun(kind: Transport)
    ensures Run(kind, []) == Fresh(kind)
  {
  }

  lemma CallersGrow(s: State, step: Step)
    ensures |s.callers| <= |Apply(s, step).callers|
    ensures forall k | 0 <= k < |s.callers| :: Apply(s, step).callers[k].id == s.callers[k].id
  {
  }

  lemma HangStep(s: State, step: Step, c: nat)
    requires Inv(s) && s.kind == Tcp && s.pump == Returned
    requires c < |s.callers| && s.callers[c].phase.Waiting? && UniqueId(s, c)
    requires s.callers[c].phase.token < |s.tokens| && s.tokens[s.callers[c].phase.token].slot.Open?
    ensures
      var s' := Apply(s, step);
      && c < |s'.callers| && s'.callers[c] == s.callers[c] && s'.pump == Returned
      && s.callers[c].phase.token < |s'.tokens| && s'.tokens[s.callers[c].phase.token].slot.Open?
  {
    var t := s.callers[c].phase.token;
    assert CallerOk(s, c) && TokenOk(s, t) && Located(s, t);
    forall id | id in s.pending && id != s.callers[c].id ensures s.pending[id] != t {
      assert EntryOk(s, id);
    }
  }

  // ---- UDP always returns ------------------------------------------------------------

  /** The caller's own next step. */
  function NextStep(s: State, c: nat): Step
    requires c < |s.callers|
  {
    match s.callers[c].phase
    case Ready(_) => Insert(c)
    case Inserted(_, _) => Send(c)
    case Waiting(t, _) => if t < |s.tokens| && s.tokens[t].slot.Open? then Timeout(c) else Await(c)
    case SendFailed(_) => CleanUp(c)
    case Expired(_, _) => RemoveStale(c)
    case Done(_) => Await(c)
  }

  function StepsLeft(ph: CallPhase): int {
    match ph
    case Ready(tries) => 4 * (10 - tries) + 4
    case Inserted(_, tries) => 4 * (10 - tries) + 3
    case Waiting(_, tries) => 4 * (10 - tries) + 2
    case Expired(_, tries) => 4 * (10 - tries) + 1
    case SendFailed(_) => 1
    case Done(_) => 0
  }

  /** In every reachable state a UDP call that has not returned can take a step
      of its own, the timer's included, that brings it nearer to returning. */
  lemma UdpMakesProgress(steps: seq<Step>, c: nat)
    requires c < |Run(Udp, steps).callers| && !Run(Udp, steps).callers[c].phase.Done?
    ensures
      var s := Run(Udp, steps);
      && Enabled(s, NextStep(s, c))
      && 0 <= StepsLeft(Apply(s, NextStep(s, c)).callers[c].phase) < StepsLeft(s.callers[c].phase) <= 44
  {
    RunInv(Udp, steps);
    KindStays(Udp, steps);
    var s := Run(Udp, steps);
    assert CallerOk(s, c);
    hide Inv, Run, TokenOk, EntryOk, HandsOk;
  }

  /** And no step at all, its own or another's, takes it further away. */
  lemma NothingDelays(s: State, step: Step, c: nat)
    requires c < |s.callers| && CallerOk(s, c)
    ensures c < |Apply(s, step).callers|
    ensures StepsLeft(Apply(s, step).callers[c].phase) <= StepsLeft(s.callers[c].phase)
  {
    if !OwnStep(step, c) {
      hide Apply;
      OthersLeave(s, step, c);
    }
  }

  /** How many steps of a run were the caller's own. */
  function OwnSteps(kind: Transport, steps: seq<Step>, c: nat): nat {
    if steps == [] then 0
    else
      var n := |steps| - 1;
      var s := Run(kind, steps[..n]);
      OwnSteps(kind, steps[..n], c)
      + if c < |s.callers| && !s.callers[c].phase.Done? && steps[n] == NextStep(s, c) then 1 else 0
  }

  lemma {:induction false} NoOwnStepsYet(kind: Transport, steps: seq<Step>, c: nat)
    requires c >= |Run(kind, steps).callers|
    ensures OwnSteps(kind, steps, c) == 0
  {
    if steps != [] {
      hide Apply;
      var n := |steps| - 1;
      CallersGrow(Run(kind, steps[..n]), steps[n]);
      NoOwnStepsYet(kind, steps[..n], c);
    }
  }

  lemma {:induction false} UdpBudget(steps: seq<Step>, c: nat)
    requires c < |Run(Udp, steps).callers|
    ensures OwnSteps(Udp, steps, c) + StepsLeft(Run(Udp, steps).callers[c].phase) <= 44
  {
    var n := |steps| - 1;
    var s := Run(Udp, steps[..n]);
    if c < |s.callers| {
      UdpBudget(steps[..n], c);
      RunInv(Udp, steps[..n]);
      assert CallerOk(s, c);
      hide Apply, Inv, CallerOk;
      NothingDelays(s, steps[n], c);
      if !s.callers[c].phase.Done? {
        UdpMakesProgress(steps[..n], c);
      }
    } else {
      NewCaller(s, steps[n], c);
      NoOwnStepsYet(Udp, steps[..n], c);
    }
  }

  lemma NewCaller(s: State, step: Step, c: nat)
    requires |s.callers| <= c < |Apply(s, step).callers|
    ensures Apply(s, step).callers[c].phase == Ready(0)
  {
  }

  /** A UDP call is back after at most 44 steps of its own, whatever callers and pump
      do in between; and until then it always has one to take. */
  lemma UdpReturns(steps: seq<Step>, c: nat)
    requires c < |Run(Udp, steps).callers|
    ensures OwnSteps(Udp, steps, c) <= 44
    ensures OwnSteps(Udp, steps, c) == 44 ==> Run(Udp, steps).callers[c].phase.Done?
    ensures !Run(Udp, steps).callers[c].phase.Done? ==> Enabled(Run(Udp, steps), NextStep(Run(Udp, steps), c))
  {
    UdpBudget(steps, c);
    RunInv(Udp, steps);
    assert CallerOk(Run(Udp, steps), c);
    hide Run, Inv;
    if !Run(Udp, steps).callers[c].phase.Done? {
      UdpMakesProgress(steps, c);
    }
  }
}
