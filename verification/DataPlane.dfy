/**
 The UDP data channel (src/udp/dataplane.rs): a counter-mode sealer and an
 opener that authenticates a record before it consults its replay window.
 The window size is not fixed here: every result holds for every size.
 */
module DataPlane {
  import opened Common
  import opened Wire

  datatype Sealer = Sealer(key: RecordKey, next: nat)
  datatype Opener = Opener(key: RecordKey, window: nat, seen: set<nat>)
  datatype Channel = Channel(sealer: Sealer, opener: Opener)

  /** The channel the client builds from a seed, and the one the server builds. */
  function ClientChannel(seed: Nonce, window: nat): Channel {
    Channel(Sealer(RecordKey(seed, C2S), 0), Opener(RecordKey(seed, S2C), window, {}))
  }

  function ServerChannel(seed: Nonce, window: nat): Channel {
    Channel(Sealer(RecordKey(seed, S2C), 0), Opener(RecordKey(seed, C2S), window, {}))
  }

  function Sealed(ch: Channel, env: Envelope): Record {
    Record(ch.sealer.key, ch.sealer.next, Env(env))
  }

  function AfterSeal(ch: Channel): Channel {
    ch.(sealer := ch.sealer.(next := ch.sealer.next + 1))
  }

  /** Authentic, not seen before, and not older than the window allows. */
  predicate Accepts(o: Opener, r: Record) {
    && r.Record?
    && r.key == o.key
    && r.counter !in o.seen
    && forall c | c in o.seen :: c < r.counter + o.window
  }

  predicate Opens(ch: Channel, d: Dgram) {
    d.Data? && Accepts(ch.opener, d.record)
  }

  function AfterOpen(ch: Channel, d: Dgram): Channel {
    if Opens(ch, d) then
      ch.(opener := ch.opener.(seen := ch.opener.seen + {d.record.counter}))
    else
      ch
  }

  function Opened(ch: Channel, d: Dgram): Option<Envelope> {
    if Opens(ch, d) && d.record.plain.Env? then Some(d.record.plain.env) else None
  }

  /** The channel object, whose sealer and opener advance in place. */
  class DataChannel {
    var sealerKey: RecordKey
    var next: nat
    var openerKey: RecordKey
    var window: nat
    var seen: set<nat>

    constructor (ch: Channel)
      ensures Value() == ch
    {
      sealerKey, next := ch.sealer.key, ch.sealer.next;
      openerKey, window, seen := ch.opener.key, ch.opener.window, ch.opener.seen;
    }

    function Value(): Channel
      reads this
    {
      Channel(Sealer(sealerKey, next), Opener(openerKey, window, seen))
    }

    method SealEnvelope(env: Envelope) returns (wire: Dgram)
      modifies this
      ensures wire == Data(Sealed(old(Value()), env))
      ensures Value() == AfterSeal(old(Value()))
    {
      wire := Data(Record(sealerKey, next, Env(env)));
      next := next + 1;
    }

    /** Whatever arrives, the result is `Ok`: an error here would end the
        client's pump. A refused datagram leaves the channel as it was. */
    method OpenDatagram(d: Dgram) returns (r: Result<Option<Envelope>, string>)
      modifies this
      ensures r == Ok(Opened(old(Value()), d))
      ensures Value() == AfterOpen(old(Value()), d)
    {
      match d
      case Undecodable | Hs1Malformed | Hs1(_, _) | Hs2(_) | Hs3(_) | CookieMsg(_) =>
        return Ok(None);
      case Data(record) =>
        if record.Garbage? || record.key != openerKey || record.counter in seen {
          return Ok(None);
        }
        if exists c | c in seen :: record.counter + window <= c {
          return Ok(None);
        }
        seen := seen + {record.counter};
        match record.plain
        case Env(env) => return Ok(Some(env));
        case NotAnEnvelope => return Ok(None);
    }
  }

  /** What has been opened once does not open again, whether or not it held an
      envelope. */
  lemma ReplayRefused(ch: Channel, d: Dgram)
    requires Opens(ch, d)
    ensures !Opens(AfterOpen(ch, d), d)
    ensures Opened(ch, d) == (if d.record.plain.Env? then Some(d.record.plain.env) else None)
  {
  }

  // ---- One direction over a network that loses, repeats and reorders --------

  datatype Delivery = Delivery(counter: nat, env: Envelope)

  /** One direction between two ends of a seed: `sealed` lists the envelopes
      the sending end was given, `wire` the records it made of them, and
      `delivered` what the receiving end has handed to its owner. A link is two
      pipes, one each way. */
  datatype Pipe = Pipe(tx: Channel, rx: Channel, sealed: seq<Envelope>, wire: seq<Record>, delivered: seq<Delivery>)

  /** A sealed datagram reaches the receiver by `Deliver` (any number of times,
      in any order, or never); `Junk` is anything sent without the sender's
      key, the receiver's own records reflected back included. */
  datatype PipeStep = Seal(env: Envelope) | Deliver(k: nat) | Junk(d: Dgram)

  /** Client to server, or server to client, right after the handshake. */
  function Fresh(seed: Nonce, window: nat, dir: Direction): Pipe {
    match dir
    case C2S => Pipe(ClientChannel(seed, window), ServerChannel(seed, window), [], [], [])
    case S2C => Pipe(ServerChannel(seed, window), ClientChannel(seed, window), [], [], [])
  }

  /** Present one datagram to the receiver and note what comes out. */
  function Receive(p: Pipe, d: Dgram): Pipe {
    var out := Opened(p.rx, d);
    p.(rx := AfterOpen(p.rx, d),
       delivered := if out.Some? then p.delivered + [Delivery(d.record.counter, out.value)] else p.delivered)
  }

  predicate IsJunk(p: Pipe, d: Dgram) {
    d.Data? && d.record.Record? ==> d.record.key != p.tx.sealer.key
  }

  function Apply(p: Pipe, step: PipeStep): Pipe {
    match step
    case Seal(env) => p.(tx := AfterSeal(p.tx), sealed := p.sealed + [env], wire := p.wire + [Sealed(p.tx, env)])
    case Deliver(k) => if k < |p.wire| then Receive(p, Data(p.wire[k])) else p
    case Junk(d) => if IsJunk(p, d) then Receive(p, d) else p
  }

  function RunPipe(p: Pipe, steps: seq<PipeStep>): Pipe {
    if steps == [] then p else Apply(RunPipe(p, steps[..|steps| - 1]), steps[|steps| - 1])
  }

  predicate PipeInv(p: Pipe) {
    && p.rx.opener.key == p.tx.sealer.key
    && p.tx.sealer.next == |p.sealed| == |p.wire|
    && (forall k | 0 <= k < |p.wire| :: p.wire[k] == Record(p.tx.sealer.key, k, Env(p.sealed[k])))
    && (forall i | 0 <= i < |p.delivered| ::
          && p.delivered[i].counter in p.rx.opener.seen
          && p.delivered[i].counter < |p.sealed|
          && p.delivered[i].env == p.sealed[p.delivered[i].counter])
    && (forall i, j | 0 <= i < j < |p.delivered| :: p.delivered[i].counter != p.delivered[j].counter)
  }

  lemma {:induction false} PipeInvHolds(seed: Nonce, window: nat, dir: Direction, steps: seq<PipeStep>)
    ensures PipeInv(RunPipe(Fresh(seed, window, dir), steps))
  {
    if steps != [] {
      PipeInvHolds(seed, window, dir, steps[..|steps| - 1]);
    }
  }

  /** Over every history of sealing, loss, repetition, reordering and junk, in
      either direction: each delivery is an envelope the other end sealed under
      that very counter, and no counter is delivered twice. */
  lemma AtMostOnceAndAuthentic(seed: Nonce, window: nat, dir: Direction, steps: seq<PipeStep>, i: nat)
    requires i < |RunPipe(Fresh(seed, window, dir), steps).delivered|
    ensures
      var p := RunPipe(Fresh(seed, window, dir), steps);
      var d := p.delivered[i];
      && d.counter < |p.sealed| && d.env == p.sealed[d.counter]
      && forall j | 0 <= j < |p.delivered| && j != i :: p.delivered[j].counter != d.counter
  {
    PipeInvHolds(seed, window, dir, steps);
  }

  function WithoutJunk(steps: seq<PipeStep>): seq<PipeStep> {
    if steps == [] then []
    else
      var rest := WithoutJunk(steps[..|steps| - 1]);
      var last := steps[|steps| - 1];
      if last.Junk? then rest else rest + [last]
  }

  /** Junk changes nothing: the whole pipe, deliveries included, is the one the
      same history without the junk produces. */
  lemma {:induction false} JunkIsInvisible(seed: Nonce, window: nat, dir: Direction, steps: seq<PipeStep>)
    ensures RunPipe(Fresh(seed, window, dir), steps) == RunPipe(Fresh(seed, window, dir), WithoutJunk(steps))
  {
    if steps != [] {
      var init, last := steps[..|steps| - 1], steps[|steps| - 1];
      JunkIsInvisible(seed, window, dir, init);
      PipeInvHolds(seed, window, dir, init);
      if !last.Junk? {
        var kept := WithoutJunk(init);
        assert (kept + [last])[..|kept|] == kept;
      }
    }
  }

  /** Some delivery carries this counter. */
  predicate Taken(p: Pipe, counter: nat) {
    exists i | 0 <= i < |p.delivered| :: p.delivered[i].counter == counter
  }

  /** What the receiver remembers is what it has delivered, and its window is the
      one it was given. */
  predicate Remembers(p: Pipe, window: nat) {
    && p.rx.opener.window == window
    && (forall c | c in p.rx.opener.seen :: Taken(p, c))
    && (forall i | 0 <= i < |p.delivered| :: p.delivered[i].counter in p.rx.opener.seen)
  }

  lemma ReceiveRemembers(p: Pipe, d: Dgram, window: nat)
    requires Remembers(p, window)
    requires d.Data? && d.record.Record? && d.record.key == p.rx.opener.key ==> d.record.plain.Env?
    ensures Remembers(Receive(p, d), window)
  {
    var p' := Receive(p, d);
    forall c | c in p'.rx.opener.seen ensures Taken(p', c) {
      if c in p.rx.opener.seen {
        var i :| 0 <= i < |p.delivered| && p.delivered[i].counter == c;
        assert p'.delivered[i].counter == c;
      } else {
        assert p'.delivered[|p.delivered|].counter == c;
      }
    }
  }

  lemma {:induction false} MemoryIsDelivery(seed: Nonce, window: nat, dir: Direction, steps: seq<PipeStep>)
    ensures Remembers(RunPipe(Fresh(seed, window, dir), steps), window)
  {
    if steps != [] {
      var n := |steps| - 1;
      var p := RunPipe(Fresh(seed, window, dir), steps[..n]);
      MemoryIsDelivery(seed, window, dir, steps[..n]);
      PipeInvHolds(seed, window, dir, steps[..n]);
      match steps[n]
      case Seal(_) =>
      case Deliver(k) => if k < |p.wire| { ReceiveRemembers(p, Data(p.wire[k]), window); }
      case Junk(d) => if IsJunk(p, d) { ReceiveRemembers(p, d, window); }
    }
  }

  /** A sealed record that arrives is delivered exactly if it was not delivered before
      and no record delivered so far is ahead of it by the window or more. */
  lemma DeliveredWhenFresh(seed: Nonce, window: nat, dir: Direction, steps: seq<PipeStep>, counter: nat)
    requires counter < |RunPipe(Fresh(seed, window, dir), steps).sealed|
    ensures
      var p := RunPipe(Fresh(seed, window, dir), steps);
      RunPipe(Fresh(seed, window, dir), steps + [Deliver(counter)]).delivered
      == if !Taken(p, counter) && forall i | 0 <= i < |p.delivered| :: p.delivered[i].counter < counter + window
         then p.delivered + [Delivery(counter, p.sealed[counter])]
         else p.delivered
  {
    PipeInvHolds(seed, window, dir, steps);
    MemoryIsDelivery(seed, window, dir, steps);
    var all := steps + [Deliver(counter)];
    assert all[..|all| - 1] == steps;
    var p := RunPipe(Fresh(seed, window, dir), steps);
    if forall i | 0 <= i < |p.delivered| :: p.delivered[i].counter < counter + window {
      forall c | c in p.rx.opener.seen ensures c < counter + window {
        assert Taken(p, c);
      }
    }
  }

  /** In particular the first record of either end is delivered when it comes first,
      whatever the window. */
  lemma FirstRecordDelivered(seed: Nonce, window: nat, dir: Direction, env: Envelope)
    ensures
      RunPipe(Fresh(seed, window, dir), [Seal(env), Deliver(0)]).delivered == [Delivery(0, env)]
  {
    var p := RunPipe(Fresh(seed, window, dir), [Seal(env)]);
    assert [Seal(env)][..0] == [] && RunPipe(Fresh(seed, window, dir), []) == Fresh(seed, window, dir);
    assert p.sealed == [env] && p.delivered == [];
    DeliveredWhenFresh(seed, window, dir, [Seal(env)], 0);
    assert [Seal(env)] + [Deliver(0)] == [Seal(env), Deliver(0)];
  }
}
