# vaiexia-obfs in Dafny

A model of the transports in `vaiexia-obfs` and proofs about it: the UDP handshake and the server's peer table as a
protocol over a lossy, hostile network; reassembly of frames from a TCP stream; the correlation of requests and
responses between callers and a background pump; dialling through chains of proxies; and the byte codecs in between.

Everything is proved for all inputs and all histories. A history is a sequence of events. An event that the present
state rules out changes nothing, so the theorems about histories need no well-formedness condition on them.

## How it is laid out

| files | what they hold |
|---|---|
| `Common`, `Wire` | shared vocabulary; handshake messages, records and cookies as ideal values |
| `DataPlane` | the data channel, as functions and as an object, and one direction of it over a bad network |
| `PeerTable`, `TableInvariant` | the UDP server as a state machine over its two tables, and what every event keeps |
| `TableBounds`, `CookieAdmission`, `Stability`, `Sweeping`, `Replies`, `Subscriptions` | what follows for every history |
| `UdpServer` | `handle_dgram` with its tables updated in place, proved equal to the state machine |
| `ClientHandshake` | the client's handshake as a machine, its budget, and the nested loops of the source as a history of it |
| `Protocol`, `Agreement`, `Completion` | server, honest clients and network together: key agreement, no counter reuse, completion |
| `Framing`, `TcpReceive`, `TcpHandshake` | the stream format, the accumulation loops, the handshake and its handover to the pump |
| `Requests` | callers and pump in their atomic steps, for TCP and UDP |
| `Text`, `Base64`, `Utf8`, `ProxyIo`, `Socks5`, `HttpConnect`, `ProxyChain` | the proxy dialler |
| `Hs1Framing` | datagram tags, mimicry, and the framing of the first handshake message |

## What is assumed

- Cryptography is ideal. A responder state has an identity; a third message fits only the responder state it was built
  on; a record opens only under the key that sealed it; a cookie names its epoch and its source and cannot be made up;
  key derivation is injective in seed and direction. Honest parties draw fresh randomness and keep their static keys to
  themselves; everybody else may repeat theirs, and may send anything that does not need an honest party's static key,
  ephemeral key or seed.
- `handle_dgram` is one step: the server awaits it before it reads the next datagram, and only the cookie rotation, the
  sealer tasks and the forwarders share its state. Time passes inside it by two amounts that the event carries.
- The gate, the topic verifier, the service, the event sources, the load signal, the replay window size and all random
  draws are parameters.
- The two stream profiles come from the wire formats in the repository's README. Padding counts from the first byte of
  the frame, a header is judged when it is complete, and a record above a size limit is refused at both ends.
- A read that is dropped while pending has consumed nothing.

## Where the code and its comments part

- `src/udp/server.rs:350-351` says that eviction keeps the peer budget from being wedged and closes the evicted peer's
  sealer task. `Sweeping.WedgedWhenFull` gives datagrams that never reach the eviction from a full table;
  `Sweeping.CleanUpReachedIff` says exactly which datagrams reach it, for tables of any size, and
  `Sweeping.FullTableFreedIff` exactly who is left afterwards. `Subscriptions.EvictionLeavesSealer` exhibits an eviction
  that leaves the sealer alive; `Subscriptions.SealerEndedIff` says exactly when it ends, in every history, and
  `Subscriptions.EvictionEndsSealerIff` what that comes to while the event sources stay open.
- `MAX_PEERS` reads as a limit of 1024 peers. `Sweeping.LimitPassedIff` says exactly which event passes it;
  `TableBounds.CeilingAttained` reaches 3071, and `TableBounds.TablesBounded` shows that this is the most.
- A TCP `request` can wait for ever: `Requests.HangReachable` and `Requests.FiledAfterDrainHangs` give the schedule,
  `Requests.UnresolvedIffLate` shows that there is no other.
- The cast of a message length to 16 bits makes 65535 bytes the sharp limit of the first message
  (`Hs1Framing.FirstRoundTrip`).
- The status parser accepts an optional plus sign and leading zeros, so `+200` and `0200` count as 200:
  `HttpConnect.StatusDecides` says exactly which words do, `HttpConnect.LenientStatus` and `HttpConnect.PlusTaken` give
  the responses.
- The SOCKS5 client is more lenient than section 3 and section 6 of RFC 1928 and section 2 of RFC 1929 in three ways: it
  takes a method it never offered for no authentication, and it looks neither at the version of the authentication reply
  nor at the reserved octet. `Socks5.ConsumedIsAcceptance` shows that these are all; `Socks5.UnofferedMethodTaken` gives
  the replies with an unoffered method.

## Model

| member | source | states |
|---|---|---|
| DataPlane.DataChannel.constructor | src/udp/dataplane.rs:22-28 | the object starts out as the channel it is given |
| DataPlane.DataChannel.SealEnvelope | src/udp/dataplane.rs:31-38 | the datagram is the envelope under the next counter, and the counter moves on by one |
| DataPlane.DataChannel.OpenDatagram | src/udp/dataplane.rs:43-68 | every datagram gives `Ok`; a refused one leaves the channel untouched, an accepted one marks its counter |
| DataPlane.PipeInvHolds | src/udp/dataplane.rs:31-68 | after every history of sealing, loss, repetition, reordering and junk, each record on the wire and each delivery matches what was sealed under its counter |
| DataPlane.AtMostOnceAndAuthentic | src/udp/dataplane.rs:31-68 | every delivered envelope was sealed by the other end under that counter, and no counter is delivered twice |
| DataPlane.JunkIsInvisible | src/udp/dataplane.rs:43-68 | the same history with the junk taken out gives the same channels and the same deliveries |
| DataPlane.DeliveredWhenFresh | src/udp/dataplane.rs:57-67 | a sealed record that arrives is delivered exactly if it was not delivered before and no delivered one is ahead of it by the window or more |
| DataPlane.MemoryIsDelivery | src/udp/dataplane.rs:57-61 | after every history the receiver remembers exactly the counters it delivered, with the window it was given |
| DataPlane.FirstRecordDelivered | src/udp/handshake.rs:316-322 | the first record of either end is delivered |
| DataPlane.ReplayRefused | src/udp/dataplane.rs:57-67 | what has been opened once does not open again, envelope or not |
| PeerTable.Hs1Effect | src/udp/server.rs:199-237 | a first message either admits one entry, within the caps and with a verified cookie if there is load, or leaves both tables as they are |
| PeerTable.RouteConn | src/udp/server.rs:276-342 | a datagram touches an existing connection only if it is data from the address whose entry leads there |
| PeerTable.FinishEffect | src/udp/server.rs:347-352 | the clean-up only takes entries out of the two tables |
| TableInvariant.StepKeeps | src/udp/server.rs:171-353 | every event keeps the invariant: responder numbers never shared, peers lead to live connections of their own address, queues hold only granted events |
| TableInvariant.RunKeeps | src/udp/server.rs:171-353 | that invariant in every reachable state |
| TableInvariant.StepPending | src/udp/server.rs:223-240 | a half-open entry after an event is the one before it, or the one a second message has just been sent for |
| TableInvariant.RunFromGrows | src/udp/server.rs:239-273 | connections are appended and advanced, never removed and never given another identity |
| TableBounds.TablesBounded | src/udp/server.rs:200-232 | in every reachable state at most 2048 half-open handshakes, and at most 3071 entries in both tables |
| TableBounds.CeilingAttained | src/udp/server.rs:200-272 | some history ends with 3071 peers, so the bound is tight |
| CookieAdmission.UnprovenBounded | src/udp/server.rs:202-234 | sources without a verified cookie hold at most 256 half-open handshakes |
| CookieAdmission.AdmissionNeedsChallenge | src/udp/handshake.rs:259-274 | an admission under effective load was preceded by a cookie sent to the same source, with at most one rotation in between |
| CookieAdmission.CookieLifetime | src/udp/server.rs:74-104 | a cookie sent out verifies exactly as long as at most one rotation has followed |
| CookieAdmission.StepIssues | src/udp/handshake.rs:267-273 | a cookie becomes known only by being sent to its own source in its own epoch |
| CookieAdmission.FirstMessageAnswered | src/udp/server.rs:199-237 | what a first message is answered with, from the tables and the message alone, with the limits in numbers |
| Stability.PeerStable | src/udp/server.rs:239-353 | an established peer keeps its channel through every event except a third message that completes for its address and an idle sweep, and the sweep does remove it |
| Stability.CompletionReplaces | src/udp/server.rs:243-273 | a completing third message adds one connection, made from that message, and the entry leads to it |
| Stability.PendingIsLatest | src/udp/server.rs:223-234 | the stored responder is the one announced in the last second message to that address |
| Stability.CompletesAgainstLatest | src/udp/server.rs:239-245 | a third message completes only against the most recent second message to its source |
| Stability.CompletesAtMostOnce | src/udp/server.rs:240-273 | no two events of a history complete the same responder state |
| Stability.OldHandshakesHarmless | src/udp/server.rs:199-273 | a first message, or a third message for a responder already used up, leaves every established peer on its channel |
| Stability.ThirdMessageConsumes | src/udp/server.rs:240-241 | any third message costs its source the half-open handshake, fitting or not |
| Stability.HalfOpenStable | src/udp/server.rs:223-240 | a half-open handshake lasts through every event but a third message or an admitted first message from its own source and a clean-up when it is 5 s old |
| Sweeping.SweptClean | src/udp/server.rs:347-352 | after every event that reaches the clean-up, entries are under 5 s old and peers under 120 s idle |
| Sweeping.CleanUpReachedIff | src/udp/server.rs:187-346 | which datagrams reach the clean-up, as a condition on tables and datagram, for tables of any size |
| Sweeping.WedgedWhenFull | src/udp/server.rs:188-200 | from 1024 peers on, openings, junk and traffic from unknown sources change neither table, however long they go on |
| Sweeping.FullTableFreedIff | src/udp/server.rs:347-352 | when every peer is idle an event empties the table exactly if it reaches the clean-up, sparing at most its own source if it is a sign of life; otherwise the same sources stay |
| Sweeping.LimitPassedIff | src/udp/server.rs:239-272 | an event takes the table past 1024 peers exactly if it completes a handshake for a new source while the table is full and nobody in it is idle |
| Subscriptions.GrantOrigin | src/udp/server.rs:301-338 | every grant on a connection goes back to an earlier subscription there that the topic check passed |
| Subscriptions.QueuedEventsAllowed | src/udp/server.rs:319-336 | every queued event is on a topic an earlier subscription on the same connection was allowed |
| Subscriptions.SentEventsAllowed | src/udp/server.rs:254-266 | every event that leaves is sealed for, and sent to, a connection that was allowed its topic |
| Subscriptions.EndedOnlyWithoutSenders | src/udp/server.rs:254-272 | a sealer task that has ended has no table entry, no forwarder and an empty queue |
| Subscriptions.DrainThenEnd | src/udp/server.rs:259-266 | once nobody can queue, then through every history nobody ever can again, each turn of the sealer takes one envelope, and it ends exactly with the turn after the last |
| Subscriptions.SealerEndsIff | src/udp/server.rs:259-266 | an event ends a sealer task exactly if it is its turn, its queue is empty and no sender is left |
| Subscriptions.SealerEndedIff | src/udp/server.rs:254-272 | in every history, from every state, a sealer ends exactly if at some point its last sender was gone and from there it got one turn more than its queue was long |
| Subscriptions.EvictionEndsSealerIff | src/udp/server.rs:350-352 | the case of an evicted peer whose event sources stay open: it ends exactly when there was no forwarder and it got one turn more than its queue was long |
| Subscriptions.SubscriptionKeepsSealer | src/udp/server.rs:320-334 | while its event source is open a subscription keeps the sealer alive through every history |
| Subscriptions.QueueMovesUp | src/udp/server.rs:259-266 | a queued envelope moves up one place a turn and is neither lost nor overtaken, in every history |
| Subscriptions.EvictedStillReceives | src/udp/server.rs:323-334 | an event published to any subscription, evicted peer or not and whatever is queued before it, is sent to the peer when its turn comes, in every history |
| Subscriptions.EvictionLeavesSealer | src/udp/server.rs:350-352 | for any established peer, subscribing and 120 s of silence end in an eviction with the sealer alive |
| Replies.RequestAnswered | src/udp/server.rs:295-300 | in every run a request is answered to its sender, on its connection and under the next counter, with the service's response |
| Replies.PingAnswered | src/udp/server.rs:290-294 | and a ping with a pong |
| Replies.SubscribeHandled | src/udp/server.rs:301-338 | a refused subscription queues its refusal and nothing else; an allowed one is noted and adds one forwarder to those there were, if the topic has a source |
| Replies.OthersIgnored | src/udp/server.rs:339-341 | everything else a peer says changes nothing but what its opener has seen, and is not answered |
| Replies.UnopenedIgnored | src/udp/server.rs:277-283 | data that does not open, or comes from nobody, is not answered and only renews the idle time of a known source |
| Replies.OneForwarderEnds | src/udp/server.rs:323-334 | closing one event source ends one forwarder and leaves all others |
| Replies.EventForwarded | src/udp/server.rs:325-329 | an event is queued once on the connection of the forwarder that took it, if it is on its topic, and otherwise nowhere |
| UdpServer.RetainPending | src/udp/server.rs:347-349 | the loop keeps exactly the entries under 5 s old |
| UdpServer.RetainPeers | src/udp/server.rs:350-352 | the loop keeps exactly the peers under 120 s idle |
| UdpServer.Receiver.constructor | src/udp/server.rs:146-150 | the receive loop starts with empty tables |
| UdpServer.Receiver.Rotate | src/udp/server.rs:97-102 | a rotation moves to the next epoch and nothing else |
| UdpServer.Receiver.HandleHs1 | src/udp/server.rs:199-237 | the branch for first messages, updating in place, is the state machine's |
| UdpServer.Receiver.HandleHs3 | src/udp/server.rs:239-274 | the branch for third messages, updating in place, is the state machine's |
| UdpServer.Receiver.Serve | src/udp/server.rs:285-341 | the match on the envelope: the new connection and the datagram sealed in reply |
| UdpServer.Receiver.HandleData | src/udp/server.rs:276-342 | the branch for data, updating in place, is the state machine's |
| UdpServer.Receiver.Dispatch | src/udp/server.rs:187-345 | everything before the clean-up, early returns included |
| UdpServer.Receiver.CleanUp | src/udp/server.rs:347-352 | the two retains are the machine's sweep |
| UdpServer.Receiver.HandleDgram | src/udp/server.rs:171-353 | the whole call, its new state and what it sends, is the machine's step |
| ClientHandshake.StepSpends | src/udp/handshake.rs:97-211 | every step of the client pays for what it sends and waits out of what it has left |
| ClientHandshake.HandshakeBudget | src/udp/handshake.rs:97-211 | whatever arrives, at most 48 datagrams and at most 19.5 s |
| ClientHandshake.BudgetAttained | src/udp/handshake.rs:97-211 | some history sends all 48 and waits all 19.5 s |
| ClientHandshake.Socket.SendTo | src/udp/handshake.rs:117-118 | a send succeeds as the surroundings say; one that succeeds is logged, one that fails is not |
| ClientHandshake.Socket.RecvFromServer | src/udp/handshake.rs:213-226 | the loop hears what `Listen` says it hears, at that time, and leaves that inbox |
| ClientHandshake.ListenTakes | src/udp/handshake.rs:213-226 | what is taken off the inbox is strays and then the one arrival reported, or strays only and nothing else was due before the deadline |
| ClientHandshake.DriveIsRun | src/udp/handshake.rs:97-211 | the machine driven by an inbox is a run of the machine on the time of the clock, and its events report exactly the arrivals taken, in order |
| ClientHandshake.OutcomeStands | src/udp/handshake.rs:182-210 | an outcome once reached stands, so it is determined by the surroundings |
| ClientHandshake.WaitIsExact | src/udp/handshake.rs:173-199 | the wait for the ready record ends with the first record that opens, at the deadline, or with the socket, and at no other point |
| ClientHandshake.ReadyIsHeard | src/udp/handshake.rs:173-183 | whatever else arrives first, from anywhere, a record that opens before the deadline connects the client |
| ClientHandshake.SilenceIsWaitedOut | src/udp/handshake.rs:173-199 | if none opens, it waits to the deadline and not less, whatever arrives |
| ClientHandshake.StrayCostsOneTry | src/udp/handshake.rs:122-141 | anything but a second message costs one try; the next carries the last cookie received |
| ClientHandshake.SilenceCostsOneTry | src/udp/handshake.rs:114-123 | silence costs one try and the cookie is kept |
| ClientHandshake.SecondMessageDecides | src/udp/handshake.rs:144-161 | the second message of this exchange is answered with the third, any other ends the attempt |
| ClientHandshake.ResendsTheSame | src/udp/handshake.rs:186-199 | what is resent is the same third message |
| ClientHandshake.FailuresOfTheSocket | src/udp/handshake.rs:117-124 | which failures of the socket end the handshake and which cost a datagram |
| ClientHandshake.SilentServer | src/udp/handshake.rs:97-211 | against a silent server the client sends exactly 36 first messages, twelve to a seed, and gives up after 9 s, whatever others send |
| ClientHandshake.WaitReady | src/udp/handshake.rs:173-199 | the wait is the reference wait over the inbox, arrival by arrival, and what the machine does |
| ClientHandshake.SendMsg1 | src/udp/handshake.rs:115-141 | one try of message 1 is what the machine does on what the inbox holds |
| ClientHandshake.GetMsg2 | src/udp/handshake.rs:113-152 | the retransmission loop with its cookie is what the machine does on what the inbox holds |
| ClientHandshake.ConfirmReady | src/udp/handshake.rs:171-206 | the ready wait and the three resends are what the machine does on what the inbox holds |
| ClientHandshake.Attempt | src/udp/handshake.rs:97-207 | one attempt with its fresh seed is what the machine does on what the inbox holds |
| ClientHandshake.ClientUdpHandshake | src/udp/handshake.rs:89-211 | the nested loops end within the budget; result, sends, clock and remaining inbox are those of the driven machine; the events report exactly the arrivals taken; `Ok` is the connected state for one of the seeds drawn |
| Agreement.InvHolds | src/udp/handshake.rs:89-325 | the invariant of server, clients and network together, in every reachable world |
| Agreement.NoCounterReuse | src/udp/handshake.rs:97-169 | under an honest seed no key and counter are ever sealed twice, by anyone |
| Agreement.OneServerChannelPerSeed | src/udp/server.rs:239-272 | an honest seed makes at most one channel at the server |
| Agreement.OneClientPerSeed | src/udp/handshake.rs:97-100 | an honest seed belongs to at most one client |
| Agreement.OneClientChannelPerSeed | src/udp/handshake.rs:154-169 | over a whole run no two steps that build a client channel use the same seed |
| Agreement.InstallOrigin | src/udp/server.rs:239-272 | every connection was installed by one delivery of a third message that fitted and that the gate admitted |
| Agreement.Agree | src/udp/handshake.rs:154-207 | a connected client has exactly one counterpart at the server, installed by its own third message, with its key admitted and the record keys mirrored |
| Agreement.ClientRunsMachine | src/udp/handshake.rs:89-211 | every client of every run is a run of the client machine on its own events |
| Agreement.HandshakeAgrees | src/udp/handshake.rs:154-207 | a client call that saw those events and returned a channel has exactly one counterpart at the server, at the other end of that channel |
| Agreement.ServerAgrees | src/udp/server.rs:239-272 | a connection under an honest static key was installed by the third message of an honest client with that key, and holds its seed |
| Agreement.OpenedWasSealed | src/udp/dataplane.rs:43-68 | whatever opens under an honest seed was sealed by the party that holds the matching key |
| Completion.ServerAnswersHs1 | src/udp/handshake.rs:276-294 | a first message gets a second message and a stored responder unless it is to be challenged; without load the cookie does not matter |
| Completion.ServerChallenges | src/udp/handshake.rs:261-274 | under load, one without a cookie or with a stale one gets a cookie that the next try can use |
| Completion.RunSound | src/udp/handshake.rs:113-142 | in every run the cookies clients hold are ones the server sent out, or worthless |
| Completion.HandshakeCompletes | src/udp/handshake.rs:89-211 | from every reachable world with room, whatever cookie the client holds, six lossless steps connect it, nine if it is challenged on the way |
| Framing.U32RoundTrip | README.md:27-27 | the length field comes back |
| Framing.U32BigEndian | README.md:27-27 | the most significant octet of the length comes first |
| Framing.FrameSize | README.md:36-43 | magic, record and padding have their places; an AmneziaJunk frame is a multiple of the bucket with less than a bucket of padding |
| Framing.ParseStable | src/framing.rs:71-113 | more bytes never change a verdict already reached, and only extend what follows the frame |
| Framing.ParseFrame | README.md:36-39 | a frame parses back to its record, whatever follows it |
| Framing.ParsePrefix | src/framing.rs:71-113 | no proper prefix of a frame is taken for a frame or for a broken one |
| Framing.ParsedIsFrame | src/framing.rs:80-86 | what is taken off the buffer is a frame of the record reported |
| Framing.AwaitedIsFrame | src/framing.rs:87-104 | what is waited for, once there is a header, is the rest of a frame |
| Framing.RefusedIsNoFrame | src/framing.rs:105-110 | what is refused begins with no frame, whatever follows |
| Framing.StreamRoundTrip | src/framing.rs:40-113 | for every session that decrypts what it encrypts, the frames of any list of envelopes within the record limit decode to that list, with nothing left over |
| Framing.TruncatedStream | src/framing.rs:87-104 | cut anywhere, the complete frames come out, and the end is clean exactly between two frames |
| TcpReceive.TcpStream.Read | src/framing.rs:88-103 | bytes come in order and are never lost; a pending read consumes none |
| TcpReceive.Connection.constructor | src/client.rs:130-131 | the pump starts from the buffer the handshake left |
| TcpReceive.Connection.RecvRaw | src/framing.rs:135-172 | the result depends on the bytes alone, not on how they are split, and buffer plus unread is what was there less the frame |
| TcpReceive.Connection.AwaitRaw | src/framing.rs:135-172 | awaited to the end, it stays without result only for a silent open peer |
| TcpReceive.Connection.SkipExactly | src/handshake_io.rs:96-107 | exactly the preamble is taken off the stream |
| TcpReceive.Connection.RecvFrame | src/framing.rs:71-113 | one envelope decrypted in sequence, or the reason why not, with nothing consumed on a cancellation |
| TcpReceive.Connection.Pump | src/client.rs:133-153 | over any cancellations, delivered envelopes followed by the meaning of the remaining bytes is the meaning of the whole stream |
| TcpHandshake.ServerHandshake | src/handshake_io.rs:84-126 | buffer and unread are exactly what follows message 3, and an acceptable opening fails only with the socket |
| TcpHandshake.ClientHandshake | src/handshake_io.rs:37-72 | what the client writes, that what is left to read begins right behind message 2, and that an acceptable message 2 fails only with the socket |
| TcpHandshake.OpeningRoundTrip | src/handshake_io.rs:84-126 | the server splits preamble, message 1 and message 3 off to the byte, whatever is pipelined behind |
| TcpHandshake.Serve | src/server.rs:88-141 | handshake and pump together deliver a prefix of what was sent, all of it by the end of the stream, and they get there; of a client not accepted, nothing |
| Requests.RunInv | src/client.rs:191-219 | the invariant of table, channels, callers and pump in every interleaving |
| Requests.AnswersMatch | src/udp/client.rs:164-195 | an answer carries the id of its request; at most 1 transmission over TCP and 11 over UDP |
| Requests.ResponseReaches | src/client.rs:156-161 | a response that comes in for a waiting caller reaches it, whatever everybody else does meanwhile |
| Requests.DisconnectedForCause | src/client.rs:191-218 | a call ends in Disconnected only if the table was drained or another call uses its id |
| Requests.TimedOutAfterAll | src/udp/client.rs:184-190 | a call times out only over UDP and after all eleven transmissions |
| Requests.DoneIsFinal | src/client.rs:205-219 | a call returns once |
| Requests.NothingLeftBehind | src/udp/client.rs:164-195 | a returned call leaves no entry of its own, and with a unique id none under its id, even if the pump exits midway |
| Requests.FiledBeforeDrainResolved | src/client.rs:191-199 | a request filed before the drain has its answer or Disconnected once the pump is gone |
| Requests.UnresolvedIffLate | src/client.rs:205-219 | with a unique id, a call still waiting when the pump is gone is unresolved exactly if it was filed after the drain |
| Requests.SendUntilExit | src/client.rs:212-218 | a send goes through until the pump is gone, drained table or not |
| Requests.SendAfterExitDisconnects | src/client.rs:212-216 | a send after the pump is gone gives Disconnected and an empty place in the table |
| Requests.HangReachable | src/client.rs:191-219 | a schedule files a request after the drain and sends it before the receiver goes |
| Requests.FiledAfterDrainHangs | src/client.rs:205-219 | after that schedule, whatever else happens, the TCP call never returns |
| Requests.UdpMakesProgress | src/udp/client.rs:169-192 | a UDP call can always take a step of its own towards returning, at most 44 of them |
| Requests.NothingDelays | src/udp/client.rs:169-192 | no step of anybody takes a call further from returning |
| Requests.UdpReturns | src/udp/client.rs:164-195 | under every interleaving a UDP call is back after at most 44 steps of its own, and until then it has one to take |
| Text.ParseDecimal | src/proxy/mod.rs:13-15 | every port printed in decimal parses back |
| Text.ParseIff | src/proxy/mod.rs:13-15 | the parser accepts exactly an optional plus sign, zeros and the digits of a number below 65536 |
| Text.ParseAddrIff | src/proxy/mod.rs:8-17 | the address parser accepts exactly a host, a colon and a spelling of a port, split at the last colon |
| Text.ParseFormatted | src/proxy/mod.rs:8-17 | every host, with colons of its own or not, and every port come back from `host:port` |
| Base64.PushChunk | src/proxy/http_connect.rs:112-128 | one turn of the loop appends the four characters of the chunk |
| Base64.Base64Encode | src/proxy/http_connect.rs:108-130 | the loop computes the encoding of the whole input |
| Base64.DecodeEncode | src/proxy/http_connect.rs:108-130 | a decoder for section 4 of RFC 4648 undoes it on every byte string |
| Base64.EncodeLength | src/proxy/http_connect.rs:110-111 | four characters for every three bytes begun |
| Base64.PaddingExactlyAtEnd | src/proxy/http_connect.rs:118-127 | padding stands at the end, as many as the length modulo three dictates, and nowhere else |
| Base64.Printable | src/proxy/http_connect.rs:109-109 | no control character or blank appears in the output |
| ProxyIo.Duplex.WriteAll | src/proxy/socks5.rs:41-41 | the bytes are appended to what was written |
| ProxyIo.Duplex.ReadExact | src/proxy/socks5.rs:44-45 | all the bytes asked for, off the front of the stream, or a failure |
| Socks5.ConsumeBound | src/proxy/socks5.rs:126-155 | exactly the bound address and port are consumed, for each address type |
| Socks5.Authenticate | src/proxy/socks5.rs:35-76 | greeting, selection and authentication succeed exactly on a well-formed selection, and consume just that |
| Socks5.RequestConnect | src/proxy/socks5.rs:78-117 | request and reply succeed exactly on a well-formed reply, and consume just that |
| Socks5.TunnelSocks5 | src/proxy/socks5.rs:26-118 | the negotiation succeeds exactly on an acceptance, and the stream then stands at the first byte after it |
| Socks5.AcceptanceConsumed | src/proxy/socks5.rs:43-117 | every acceptance RFC 1928 and RFC 1929 allow, of every address type and length, is consumed to its last byte exactly if host and credentials fit their length octets |
| Socks5.ConsumedIsAcceptance | src/proxy/socks5.rs:43-117 | what is consumed is such an acceptance exactly if the method was offered, the authentication version is 1 and the reserved octet is zero |
| Socks5.UnofferedMethodTaken | src/proxy/socks5.rs:49-76 | for every method never offered, a reply that selects it is taken for consent and is none |
| Socks5.LaidConsumed | src/proxy/socks5.rs:43-117 | every reply in the layout, conforming or not, is consumed to its last byte |
| Socks5.ConsumedIsLaid | src/proxy/socks5.rs:43-117 | nothing is consumed that is not in the layout, and which bytes the fields are |
| Socks5.RequestNamesTarget | src/proxy/socks5.rs:78-90 | a server that takes the request apart finds the host and port that were meant |
| Socks5.SentIsRead | src/proxy/socks5.rs:35-90 | a server reads the methods offered, user name and password each in its place, and the address meant |
| HttpConnect.BuildRequest | src/proxy/http_connect.rs:35-48 | the request is built up to its blank line |
| HttpConnect.WordsAreRight | src/proxy/http_connect.rs:36-45 | the fixed parts of the request are the words of the protocol |
| HttpConnect.RequestRead | src/proxy/http_connect.rs:35-48 | a proxy that insists on method, version and Host field reads the target and the credentials back exactly when the host has no blank and no line feed and the user name no colon |
| HttpConnect.HeadAtIff | src/proxy/http_connect.rs:55-69 | a head in a stream ends at the first blank line, within 8192 bytes |
| HttpConnect.ReadHead | src/proxy/http_connect.rs:51-70 | the loop takes the head and nothing after it, and fails exactly if there is none within the limit |
| Utf8.IsUtf8Iff | src/proxy/http_connect.rs:73-74 | the validator accepts exactly the encodings of strings of Unicode scalar values (section 3 of RFC 3629) |
| HttpConnect.StatusDecides | src/proxy/http_connect.rs:72-96 | for every second word, accepted exactly if it is an optional plus sign, any zeros and 200 |
| HttpConnect.NoStatusRefused | src/proxy/http_connect.rs:82-86 | a status line without a second word is refused |
| HttpConnect.LenientStatus | src/proxy/http_connect.rs:88-96 | a response with any such spelling of 200 is accepted exactly if it keeps within 8192 bytes |
| HttpConnect.PlusTaken | src/proxy/http_connect.rs:88-96 | for instance +200 |
| HttpConnect.AcceptedConsumed | src/proxy/http_connect.rs:51-98 | an accepted head is consumed to its last byte, whatever follows |
| HttpConnect.TunnelHttp | src/proxy/http_connect.rs:26-99 | the negotiation succeeds exactly on an accepted head, and the stream then stands right behind it |
| ProxyChain.ConsentConsumed | src/proxy/mod.rs:62-82 | a hop's consent is recognised without a look at what follows |
| ProxyChain.ConsumedConsents | src/proxy/mod.rs:62-82 | and what was recognised is a consent on its own |
| ProxyChain.DestinationIsNext | src/proxy/mod.rs:55-60 | each hop is asked for what the next hop's address says, the last for the target |
| ProxyChain.SentInTurn | src/proxy/mod.rs:54-83 | what was sent falls into one part for each hop, and the hop reads the next address and its own credentials out of it |
| ProxyChain.ReadingUnique | src/proxy/mod.rs:54-83 | a stream can be read as the consents of a chain in one way only |
| ProxyChain.StuckIsUndialable | src/proxy/mod.rs:54-83 | a chain that fails at some hop could not have been dialled in any other way |
| ProxyChain.Tunnel | src/proxy/mod.rs:62-82 | one hop of either kind: success, stream position and bytes sent |
| ProxyChain.Dial | src/proxy/mod.rs:24-86 | for chains of any length and mix, success exactly when the stream begins with one consent per hop, as the two negotiations take it; position behind the last; the bytes sent fall into one part per hop, out of which the hop reads the next hop's address or at last the target |
| Hs1Framing.InnerIff | src/udp/wire_dgram.rs:31-45 | the tag decoder accepts what the encoder writes and nothing else |
| Hs1Framing.TagsAreThese | src/udp/wire_dgram.rs:5-11 | the tag octets |
| Hs1Framing.ShapeRoundTrip | src/udp/handshake.rs:26-38 | through any mimicry that undoes itself, type and body come back |
| Hs1Framing.DecodeEncoded | src/udp/handshake.rs:60-86 | what the decoder makes of every encoding, oversized messages included |
| Hs1Framing.LengthLeads | src/udp/handshake.rs:62-65 | the length comes first, most significant octet first |
| Hs1Framing.FirstRoundTrip | src/udp/handshake.rs:60-86 | message and cookie come back exactly up to 65535 bytes |
| Hs1Framing.DecodeIff | src/udp/handshake.rs:71-86 | on arbitrary bytes, exactly what the decoder accepts and as what |
| Hs1Framing.ChallengeRoundTrip | src/udp/handshake.rs:40-86 | a cookie reaches the client and comes back with the message, through any faithful mimicry, exactly up to 65535 bytes |

## Left out

- The Noise handshake, the record cipher, key derivation, the replay window's data structure and the cookie MAC: they
  live in sibling crates and appear as ideal values; the window is a size and a set of counters.
- JSON: envelopes are values; over TCP an invertible encoding is part of the session.
- Sockets, task scheduling and jitter: only the atomic steps and the points where a wait can be dropped are kept.
- The send loop of the UDP server, which passes sealed datagrams on in order; the network model reorders and loses them
  anyway.
- `request` and the client pumps are modelled on values, as atomic steps that interleave, because they share their table
  between tasks; their bodies are not written out as methods.
- A caller that drops its `request` future half way.
- Write failures on proxy streams and failures to connect to the first hop: each only ends the dial with an error.
- Failures of Noise message writing and of sealing, which the ideal objects do not have.
- TCP subscriptions (`handle_subscribe` in `src/server.rs`), which repeat the UDP ones without the sealer task, and the
  client's `subscribe`.
- Broadcast lag, event de-duplication, the transport gate and load gate implementations: parameters.
- `Unsubscribe`, which the UDP server ignores, is modelled as ignored.
- The legacy wrappers in `src/framing.rs` and `src/handshake_io.rs`.
- The text of error messages.
