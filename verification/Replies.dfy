/** What the server does with the envelopes of an established peer. */
module Replies {
  import opened Common
  import opened Wire
  import opened DataPlane
  import opened PeerTable
  import opened TableInvariant

  /** In this state `d` from `a` opens as `env` on connection `k`. */
  predicate Says(s: Server, a: Addr, d: Dgram, k: nat, env: Envelope) {
    && a in s.peers && s.peers[a].conn == k < |s.conns|
    && d.Data? && Opened(s.conns[k].channel, d) == Some(env)
  }

  /** The answer to `a`, sealed with the next counter of its connection. */
  function SealedFor(c: Conn, a: Addr, env: Envelope): Option<Output> {
    Some(Output(a, Data(Record(RecordKey(c.seed, S2C), c.channel.sealer.next, Env(env)))))
  }

  lemma HandledData(p: Policy, s: Server, a: Addr, d: Dgram, k: nat, env: Envelope, load: bool, before: nat, after: nat)
    requires TableInv(p, s) && Says(s, a, d, k, env)
    ensures
      var out := Step(p, s, Arrive(a, d, load, before, after));
      var c := s.conns[k];
      var (c', reply) := Dispatch(p, c.(channel := AfterOpen(c.channel, d)), env);
      && |out.server.conns| == |s.conns| && out.server.conns[k] == c'
      && out.sent == (if reply.None? then None else SealedFor(c, a, reply.value))
      && (forall j | 0 <= j < |s.conns| && j != k :: out.server.conns[j] == s.conns[j])
  {
    hide Dispatch, Finish;
    assert ConnOk(p, s.conns[k]);
    var now := s.clock + before;
    FinishEffect(Route(p, s, a, d, load, now), now + after);
  }

  /** In every run a request is answered, to the peer that sent it and on its own
      connection, with what the service makes of it. */
  lemma RequestAnswered(p: Policy, evs: seq<ServerEvent>, a: Addr, d: Dgram, k: nat, req: RpcRequest,
                        load: bool, before: nat, after: nat)
    requires Says(Run(p, evs), a, d, k, Request(req))
    ensures
      Step(p, Run(p, evs), Arrive(a, d, load, before, after)).sent
      == SealedFor(Run(p, evs).conns[k], a, Response(p.service(req)))
  {
    hide Run, Step;
    RunKeeps(p, evs);
    HandledData(p, Run(p, evs), a, d, k, Request(req), load, before, after);
  }

  /** And a ping with a pong. */
  lemma PingAnswered(p: Policy, evs: seq<ServerEvent>, a: Addr, d: Dgram, k: nat, load: bool, before: nat, after: nat)
    requires Says(Run(p, evs), a, d, k, Ping)
    ensures Step(p, Run(p, evs), Arrive(a, d, load, before, after)).sent == SealedFor(Run(p, evs).conns[k], a, Pong)
  {
    hide Run, Step;
    RunKeeps(p, evs);
    HandledData(p, Run(p, evs), a, d, k, Ping, load, before, after);
  }

  /** A subscription is not answered at once. If the topic check refuses it, the
      refusal is queued and nothing else happens; if it passes, it is noted, and if
      there is an event source for the topic, one forwarder joins those there were. */
  lemma SubscribeHandled(p: Policy, evs: seq<ServerEvent>, a: Addr, d: Dgram, k: nat, topic: Topic,
                         capability: Option<Capability>, load: bool, before: nat, after: nat)
    requires Says(Run(p, evs), a, d, k, Subscribe(topic, capability))
    ensures
      var out, c := Step(p, Run(p, evs), Arrive(a, d, load, before, after)), Run(p, evs).conns[k];
      && out.sent == None && k < |out.server.conns|
      && var c' := out.server.conns[k];
         if !p.verifyTopic(capability, topic) then
           c'.queue == c.queue + [SubscribeError(topic)] && c'.forwarders == c.forwarders && c'.granted == c.granted
         else
           && c'.queue == c.queue && c'.granted == c.granted + {(capability, topic)}
           && c'.forwarders == (if p.eventSource(topic) then c.forwarders + [topic] else c.forwarders)
  {
    RunKeeps(p, evs);
    hide Run, Step;
    HandledData(p, Run(p, evs), a, d, k, Subscribe(topic, capability), load, before, after);
  }

  predicate Answerable(env: Envelope) {
    env.Request? || env.Ping? || env.Subscribe?
  }

  /** Everything else a peer may say, an unsubscription included, is taken note of by
      the opener and by nobody else. */
  lemma OthersIgnored(p: Policy, evs: seq<ServerEvent>, a: Addr, d: Dgram, k: nat, env: Envelope,
                      load: bool, before: nat, after: nat)
    requires Says(Run(p, evs), a, d, k, env) && !Answerable(env)
    ensures
      var out, c := Step(p, Run(p, evs), Arrive(a, d, load, before, after)), Run(p, evs).conns[k];
      out.sent == None && k < |out.server.conns| && out.server.conns[k] == c.(channel := AfterOpen(c.channel, d))
  {
    hide Run, Step;
    RunKeeps(p, evs);
    HandledData(p, Run(p, evs), a, d, k, env, load, before, after);
  }

  /** Data that does not open, or comes from nobody, is answered by nobody; an entry of
      its source only has its idle time renewed. */
  lemma UnopenedIgnored(p: Policy, s: Server, a: Addr, d: Dgram, load: bool, before: nat, after: nat)
    requires TableInv(p, s) && d.Data? && (a in s.peers ==> Opened(s.conns[s.peers[a].conn].channel, d).None?)
    ensures
      var out := Step(p, s, Arrive(a, d, load, before, after));
      && out.sent == None && out.server.pending == s.pending
      && out.server.peers == (if a in s.peers then s.peers[a := Peer(s.peers[a].conn, s.clock + before)] else s.peers)
      && |out.server.conns| == |s.conns|
      && forall k | 0 <= k < |s.conns| :: SameButOpener(s.conns[k], out.server.conns[k])
  {
  }

  predicate SameButOpener(c: Conn, c': Conn) {
    c' == c.(channel := c'.channel) && c'.channel.sealer == c.channel.sealer
  }

  // ---- Forwarders -----------------------------------------------------------------------

  /** Closing one event source ends its forwarder and no other, of this connection or
      of another. */
  lemma OneForwarderEnds(p: Policy, s: Server, k: nat, f: nat, g: nat)
    requires k < |s.conns| && f < |s.conns[k].forwarders| && g < |s.conns[k].forwarders| && g != f
    ensures
      var s' := Step(p, s, SourceClosed(k, f)).server;
      && |s'.conns| == |s.conns| && |s'.conns[k].forwarders| == |s.conns[k].forwarders| - 1
      && s'.conns[k].forwarders[if g < f then g else g - 1] == s.conns[k].forwarders[g]
      && s'.conns[k].queue == s.conns[k].queue && s'.conns[k].sealerEnded == s.conns[k].sealerEnded
      && forall j | 0 <= j < |s.conns| && j != k :: s'.conns[j] == s.conns[j]
  {
  }

  /** An event taken off the broadcast by one forwarder is queued once, on its own
      connection, if it is on the forwarder's topic, and otherwise nowhere. */
  lemma EventForwarded(p: Policy, evs: seq<ServerEvent>, k: nat, f: nat, e: TopicEvent)
    requires k < |Run(p, evs).conns| && f < |Run(p, evs).conns[k].forwarders|
    ensures
      var s, s' := Run(p, evs), Step(p, Run(p, evs), Publish(k, f, e)).server;
      && |s'.conns| == |s.conns| && s'.conns[k].forwarders == s.conns[k].forwarders
      && s'.conns[k].queue == s.conns[k].queue + (if e.topic == s.conns[k].forwarders[f] then [Event(e)] else [])
      && forall j | 0 <= j < |s.conns| && j != k :: s'.conns[j] == s.conns[j]
  {
    RunKeeps(p, evs);
    hide Run;
    assert ConnOk(p, Run(p, evs).conns[k]);
  }
}
