/**
 The cryptographic objects of the UDP transport, as ideal values.

 The Noise handshake, the record layer and the cookie MAC belong to a sibling
 crate. They are modelled by what a correct implementation lets a receiver
 conclude: a responder state has an identity of its own, a third handshake
 message fits exactly the responder state it was built on, a record opens only
 under the key that sealed it, and a cookie names the epoch and the source
 address it was minted for.
 */
module Wire {
  import opened Common

  type Addr = nat
  type Topic = string
  type Capability = string

  /** A random draw: an initiator's ephemeral key, or a 32-byte seed. Honest
      draws never collide; `Rogue` draws belong to parties outside the model
      and may repeat. */
  datatype Nonce = Honest(id: nat) | Rogue(id: nat)

  /** A static public key: only its honest holder can use an `HonestKey`;
      anybody may know the secret of a `RogueKey`. */
  datatype StaticKey = HonestKey(id: nat) | RogueKey(id: nat)

  // ---- Application messages ------------------------------------------------

  datatype RpcRequest = RpcRequest(id: string, body: string)
  datatype RpcResponse = RpcResponse(id: string, body: string)
  datatype TopicEvent = TopicEvent(topic: Topic, payload: string)

  datatype Envelope =
    | Request(req: RpcRequest)
    | Response(resp: RpcResponse)
    | Event(event: TopicEvent)
    | Subscribe(topic: Topic, capability: Option<Capability>)
    | Unsubscribe(topic: Topic)
    | SubscribeError(topic: Topic)
    | Ping
    | Pong

  // ---- Records -------------------------------------------------------------

  datatype Direction = C2S | S2C

  /** Key derivation, taken to be injective in the seed and the direction. */
  datatype RecordKey = RecordKey(seed: Nonce, dir: Direction)

  /** The plaintext of a record: an envelope, or bytes that do not parse as one. */
  datatype Plain = Env(env: Envelope) | NotAnEnvelope

  datatype Record = Record(key: RecordKey, counter: nat, plain: Plain) | Garbage

  // ---- Cookies -------------------------------------------------------------

  datatype Cookie = Minted(epoch: nat, src: Addr) | Bogus(tag: nat)

  /** The two-epoch grace: the current secret or the one before it. */
  predicate CookieVerifies(epoch: nat, src: Addr, cookie: Cookie) {
    && cookie.Minted?
    && cookie.src == src
    && (cookie.epoch == epoch || cookie.epoch + 1 == epoch)
  }

  // ---- Handshake -----------------------------------------------------------

  datatype Msg1 = Msg1(initiator: Nonce) | BadMsg1
  datatype Msg2 = Msg2(initiator: Nonce, responder: nat) | BadMsg2

  /** `payload` is `None` when it is too short to hold a seed. */
  datatype Msg3 =
    | Msg3(initiator: Nonce, responder: nat, key: StaticKey, payload: Option<Nonce>)
    | BadMsg3

  /** A responder that has read message 1 of `initiator`. */
  datatype Responder = Responder(id: nat, initiator: Nonce)

  /** Reading message 3 succeeds only on the very exchange it was built on. */
  predicate ReadsMsg3(r: Responder, m: Msg3) {
    m.Msg3? && m.responder == r.id && m.initiator == r.initiator && m.payload.Some?
  }

  // ---- Datagrams -----------------------------------------------------------

  datatype Dgram =
    | Undecodable                                      // unshaping or the type tag fails
    | Hs1Malformed                                     // length prefix does not fit
    | Hs1(msg1: Msg1, cookie: Option<Cookie>)
    | Hs2(msg2: Msg2)
    | Hs3(msg3: Msg3)
    | CookieMsg(challenge: Option<Cookie>)             // `None`: body under 16 bytes
    | Data(record: Record)
}
