/** SOCKS5 negotiation (src/proxy/socks5.rs) against RFC 1928 and RFC 1929. */
module Socks5 {
  import opened Common
  import opened Text
  import opened ProxyIo

  // ---- What the client sends -----------------------------------------------------

  function Greeting(auth: Option<Auth>): bytes {
    if auth.Some? then [0x05, 0x02, 0x00, 0x02] else [0x05, 0x01, 0x00]
  }

  predicate AuthFits(auth: Option<Auth>) {
    auth.Some? && |auth.value.user| <= 255 && |auth.value.pass| <= 255
  }

  function SubNegotiation(a: Auth): bytes
    requires |a.user| <= 255 && |a.pass| <= 255
  {
    [0x01, |a.user|] + a.user + [|a.pass|] + a.pass
  }

  function ConnectRequest(dst: Address): bytes
    requires |dst.host| <= 255 && dst.port < 0x1_0000
  {
    [0x05, 0x01, 0x00, 0x03, |dst.host|] + dst.host + [dst.port / 256, dst.port % 256]
  }

  // ---- What it reads ----------------------------------------------------------------

  /** The length of the bound address and port, by address type. */
  function BoundLength(atyp: byte, rest: bytes): Option<nat> {
    match atyp
    case 0x01 => if |rest| >= 6 then Some(6) else None
    case 0x03 => if |rest| >= 1 && |rest| >= rest[0] as int + 3 then Some(rest[0] as int + 3) else None
    case 0x04 => if |rest| >= 18 then Some(18) else None
    case _ => None
  }

  /** How many bytes the method selection, and the authentication reply if the
      server asked for one, take up; `None` if they end the negotiation. */
  function SelectionLength(input: bytes, auth: Option<Auth>): (r: Option<nat>)
    ensures r.Some? ==> 2 <= r.value <= |input| && r.value == if input[1] == 0x02 then 4 else 2
  {
    if |input| < 2 || input[0] != 0x05 || input[1] == 0xFF then None
    else if input[1] != 0x02 then Some(2)
    else if !AuthFits(auth) || |input| < 4 || input[3] != 0x00 then None
    else Some(4)
  }

  /** How many bytes a successful reply to the request takes up. */
  function ConnectLength(input: bytes, dst: Address): (r: Option<nat>)
    ensures r.Some? ==> r.value <= |input| && |dst.host| <= 255
  {
    if |dst.host| > 255 || |input| < 4 || input[0] != 0x05 || input[1] != 0x00 then None
    else
      match BoundLength(input[3], input[4..])
      case None => None
      case Some(n) => Some(4 + n)
  }

  /** How many bytes of `input` a successful negotiation consumes. */
  function ReplyLength(input: bytes, auth: Option<Auth>, dst: Address): (r: Option<nat>)
    ensures r.Some? ==> r.value <= |input| && |dst.host| <= 255
  {
    match SelectionLength(input, auth)
    case None => None
    case Some(k) =>
      match ConnectLength(input[k..], dst)
      case None => None
      case Some(n) => Some(k + n)
  }

  function SelectionSent(input: bytes, auth: Option<Auth>): bytes
    requires SelectionLength(input, auth).Some?
  {
    Greeting(auth) + if input[1] == 0x02 then SubNegotiation(auth.value) else []
  }

  /** Everything sent in a successful negotiation. */
  function Sent(input: bytes, auth: Option<Auth>, dst: Address): bytes
    requires ReplyLength(input, auth, dst).Some? && dst.port < 0x1_0000
  {
    SelectionSent(input, auth) + ConnectRequest(dst)
  }

  /** `consume_bnd_addr`. */
  method ConsumeBound(io: Duplex, atyp: byte) returns (ok: bool)
    modifies io`input
    ensures ok <==> BoundLength(atyp, old(io.input)).Some?
    ensures ok ==> io.input == old(io.input)[BoundLength(atyp, old(io.input)).value..]
  {
    if atyp == 0x01 {
      var r := io.ReadExact(6);
      return r.Some?;
    } else if atyp == 0x03 {
      var len := io.ReadExact(1);
      if len.None? { return false; }
      var r := io.ReadExact(len.value[0] as int + 2);
      return r.Some?;
    } else if atyp == 0x04 {
      var r := io.ReadExact(18);
      return r.Some?;
    }
    return false;
  }

  /** The greeting, the method selection and the authentication it may ask for. */
  method Authenticate(io: Duplex, auth: Option<Auth>) returns (ok: bool)
    modifies io
    ensures ok <==> SelectionLength(old(io.input), auth).Some?
    ensures ok ==>
              && io.input == old(io.input)[SelectionLength(old(io.input), auth).value..]
              && io.output == old(io.output) + SelectionSent(old(io.input), auth)
  {
    ghost var input := io.input;
    var methods: bytes := if auth.Some? then [0x00, 0x02] else [0x00];
    io.WriteAll([0x05, |methods|] + methods);
    assert [0x05, |methods|] + methods == Greeting(auth);
    var selection := io.ReadExact(2);
    if selection.None? || selection.value[0] != 0x05 || selection.value[1] == 0xFF { return false; }
    if selection.value[1] == 0x02 {
      if auth.None? { return false; }
      var user, pass := auth.value.user, auth.value.pass;
      if |user| > 255 || |pass| > 255 { return false; }
      io.WriteAll([0x01, |user|] + user + [|pass|] + pass);
      var verdict := io.ReadExact(2);
      if verdict.None? || verdict.value[1] != 0x00 { return false; }
      assert input[2..][2..] == input[4..];
    }
    return true;
  }

  /** The request and the reply to it. */
  method RequestConnect(io: Duplex, dst: Address) returns (ok: bool)
    requires dst.port < 0x1_0000
    modifies io
    ensures ok <==> ConnectLength(old(io.input), dst).Some?
    ensures ok ==>
              && io.input == old(io.input)[ConnectLength(old(io.input), dst).value..]
              && io.output == old(io.output) + ConnectRequest(dst)
  {
    ghost var input := io.input;
    if |dst.host| > 255 { return false; }
    var req: bytes := [0x05, 0x01, 0x00, 0x03];
    req := req + [|dst.host|];
    req := req + dst.host;
    req := req + [dst.port / 256];
    req := req + [dst.port % 256];
    assert req == ConnectRequest(dst);
    io.WriteAll(req);
    var header := io.ReadExact(4);
    if header.None? || header.value[0] != 0x05 || header.value[1] != 0x00 { return false; }
    ok := ConsumeBound(io, header.value[3]);
    if ok {
      var n := BoundLength(header.value[3], input[4..]).value;
      assert input[4..][n..] == input[4 + n..];
    }
  }

  /** `tunnel_socks5`: it succeeds exactly on a well-formed acceptance, and then
      the stream stands at the first byte after it. */
  method TunnelSocks5(io: Duplex, dst: Address, auth: Option<Auth>) returns (ok: bool)
    requires dst.port < 0x1_0000
    modifies io
    ensures ok <==> ReplyLength(old(io.input), auth, dst).Some?
    ensures ok ==>
              && io.input == old(io.input)[ReplyLength(old(io.input), auth, dst).value..]
              && io.output == old(io.output) + Sent(old(io.input), auth, dst)
  {
    hide SelectionLength, ConnectLength, ConnectRequest, SelectionSent;
    ghost var input := io.input;
    ok := Authenticate(io, auth);
    if !ok { return; }
    ok := RequestConnect(io, dst);
    if ok {
      var k := SelectionLength(input, auth).value;
      var n := ConnectLength(input[k..], dst).value;
      assert input[k..][n..] == input[k + n..];
    }
  }

  // ---- The server's side, from the RFCs -------------------------------------------------

  datatype Bound = IPv4(addr: bytes) | DomainName(name: bytes) | IPv6(addr: bytes)

  /** A server's part of a negotiation, in the layout of RFC 1928, sections 3 and 6,
      and RFC 1929, section 2. */
  datatype Acceptance = Acceptance(choice: byte, authVersion: byte, reserved: byte, bound: Bound, port: bytes)

  predicate BoundOk(b: Bound) {
    match b
    case IPv4(addr) => |addr| == 4
    case DomainName(name) => |name| <= 255
    case IPv6(addr) => |addr| == 16
  }

  /** The fields have their sizes, and the method is not the refusal. */
  predicate Laid(a: Acceptance) {
    a.choice != 0xFF && |a.port| == 2 && BoundOk(a.bound)
  }

  /** What the RFCs let a server answer: one of the methods offered to it, version 1
      of the authentication, and a reserved octet of zero. */
  predicate Conforms(a: Acceptance, auth: Option<Auth>) {
    && Laid(a)
    && (a.choice == 0x00 || (a.choice == 0x02 && auth.Some? && a.authVersion == 0x01))
    && a.reserved == 0x00
  }

  function RenderBound(b: Bound): bytes
    requires BoundOk(b)
  {
    match b
    case IPv4(addr) => [0x01] + addr
    case DomainName(name) => [0x03, |name|] + name
    case IPv6(addr) => [0x04] + addr
  }

  function RenderSelection(a: Acceptance): bytes {
    [0x05, a.choice] + if a.choice == 0x02 then [a.authVersion, 0x00] else []
  }

  function RenderReply(a: Acceptance): bytes
    requires Laid(a)
  {
    [0x05, 0x00, a.reserved] + RenderBound(a.bound) + a.port
  }

  function Render(a: Acceptance): bytes
    requires Laid(a)
  {
    RenderSelection(a) + RenderReply(a)
  }

  lemma ReplyConsumed(a: Acceptance, dst: Address, tail: bytes)
    requires Laid(a) && |dst.host| <= 255
    ensures ConnectLength(RenderReply(a) + tail, dst) == Some(|RenderReply(a)|)
  {
    var input := RenderReply(a) + tail;
    assert input[3] == RenderBound(a.bound)[0];
    assert input[4..] == RenderBound(a.bound)[1..] + a.port + tail;
  }

  /** Whatever is laid out so is consumed to its last byte and no further. */
  lemma LaidConsumed(a: Acceptance, auth: Option<Auth>, dst: Address, tail: bytes)
    requires Laid(a) && |dst.host| <= 255 && (a.choice == 0x02 ==> AuthFits(auth))
    ensures ReplyLength(Render(a) + tail, auth, dst) == Some(|Render(a)|)
  {
    hide ConnectLength, RenderReply;
    var input := Render(a) + tail;
    var k := |RenderSelection(a)|;
    assert input[..k] == RenderSelection(a) && input[k..] == RenderReply(a) + tail;
    assert input[0] == RenderSelection(a)[0] && input[1] == RenderSelection(a)[1];
    assert k == 4 ==> input[3] == RenderSelection(a)[3];
    ReplyConsumed(a, dst, tail);
  }

  /** Every acceptance the RFCs allow, of any address type and length, is consumed
      to its last byte, as long as host and credentials fit their length octets. */
  lemma AcceptanceConsumed(a: Acceptance, auth: Option<Auth>, dst: Address, tail: bytes)
    requires Conforms(a, auth)
    ensures
      ReplyLength(Render(a) + tail, auth, dst)
      == if |dst.host| <= 255 && (a.choice == 0x02 ==> AuthFits(auth)) then Some(|Render(a)|) else None
  {
    hide ConnectLength, RenderReply;
    if |dst.host| <= 255 && (a.choice == 0x02 ==> AuthFits(auth)) {
      LaidConsumed(a, auth, dst, tail);
    } else {
      TooLongRefused(a, auth, dst, tail);
    }
  }

  lemma TooLongRefused(a: Acceptance, auth: Option<Auth>, dst: Address, tail: bytes)
    requires Laid(a) && (|dst.host| > 255 || (a.choice == 0x02 && !AuthFits(auth)))
    ensures ReplyLength(Render(a) + tail, auth, dst).None?
  {
    hide RenderReply;
    assert (Render(a) + tail)[1] == RenderSelection(a)[1] == a.choice;
  }

  lemma ConsumedIsBound(atyp: byte, rest: bytes) returns (bound: Bound)
    requires BoundLength(atyp, rest).Some?
    ensures BoundOk(bound) && 2 <= BoundLength(atyp, rest).value <= |rest|
    ensures [atyp] + rest[..BoundLength(atyp, rest).value - 2] == RenderBound(bound)
  {
    match atyp
    case 0x01 => bound := IPv4(rest[..4]);
    case 0x03 =>
      bound := DomainName(rest[1..rest[0] as int + 1]);
      assert rest[..rest[0] as int + 1] == [rest[0]] + bound.name;
    case _ => bound := IPv6(rest[..16]);
  }

  lemma ConsumedIsReply(input: bytes, dst: Address) returns (reserved: byte, bound: Bound, port: bytes)
    requires ConnectLength(input, dst).Some?
    ensures
      var a := Acceptance(0, 0, reserved, bound, port);
      Laid(a) && input[..ConnectLength(input, dst).value] == RenderReply(a)
  {
    hide BoundLength, RenderBound, BoundOk;
    var n := ConnectLength(input, dst).value;
    bound := ConsumedIsBound(input[3], input[4..]);
    reserved, port := input[2], input[n - 2..n];
    assert input[3..n - 2] == [input[3]] + input[4..][..n - 6];
    assert input[..n] == input[..3] + input[3..n - 2] + input[n - 2..n];
  }

  /** And nothing is consumed that is not laid out so. */
  lemma ConsumedIsLaid(input: bytes, auth: Option<Auth>, dst: Address) returns (a: Acceptance)
    requires ReplyLength(input, auth, dst).Some?
    ensures Laid(a) && (a.choice == 0x02 ==> AuthFits(auth))
    ensures input[..ReplyLength(input, auth, dst).value] == Render(a)
    ensures a.choice == input[1] && a.authVersion == (if input[1] == 0x02 then input[2] else 0)
    ensures a.reserved == input[SelectionLength(input, auth).value + 2]
  {
    hide ConnectLength;
    var k := SelectionLength(input, auth).value;
    var n := ConnectLength(input[k..], dst).value;
    var reserved, bound, port := ConsumedIsReply(input[k..], dst);
    a := Acceptance(input[1], if k == 4 then input[2] else 0, reserved, bound, port);
    assert RenderReply(a) == RenderReply(Acceptance(0, 0, reserved, bound, port));
    assert input[..k] == RenderSelection(a);
    assert input[..k + n] == input[..k] + input[k..][..n];
  }

  /** The bytes of an acceptance the RFCs allow. */
  ghost predicate IsRfcAcceptance(b: bytes, auth: Option<Auth>) {
    exists a :: Conforms(a, auth) && b == Render(a)
  }

  /** A method that was not offered. */
  predicate UnofferedMethod(input: bytes)
    requires |input| >= 2
  {
    input[1] != 0x00 && input[1] != 0x02
  }

  predicate WrongAuthVersion(input: bytes)
    requires |input| >= 4
  {
    input[1] == 0x02 && input[2] != 0x01
  }

  predicate ReservedUsed(input: bytes, auth: Option<Auth>)
    requires SelectionLength(input, auth).Some? && |input| >= SelectionLength(input, auth).value + 3
  {
    input[SelectionLength(input, auth).value + 2] != 0x00
  }

  lemma RenderedFields(a: Acceptance, b: Acceptance)
    requires Laid(a) && Laid(b) && Render(a) == Render(b)
    ensures a.choice == b.choice && (a.choice == 0x02 ==> a.authVersion == b.authVersion) && a.reserved == b.reserved
  {
    hide RenderBound;
    var r := Render(a);
    var k := |RenderSelection(a)|;
    assert r[1] == a.choice && r[1] == b.choice;
    assert a.choice == 0x02 ==> r[2] == a.authVersion && r[2] == b.authVersion;
    assert r[k + 2] == a.reserved && r[k + 2] == b.reserved;
  }

  /** The code is more lenient than the RFCs in three ways, and in no other: what it
      takes for consent is an acceptance they allow exactly if the method is one that
      was offered, the version of the authentication reply is 1 and the reserved
      octet is zero. */
  lemma ConsumedIsAcceptance(input: bytes, auth: Option<Auth>, dst: Address)
    requires ReplyLength(input, auth, dst).Some?
    ensures 6 <= ReplyLength(input, auth, dst).value <= |input|
    ensures |input| >= SelectionLength(input, auth).value + 3
    ensures
      IsRfcAcceptance(input[..ReplyLength(input, auth, dst).value], auth)
      <==> !UnofferedMethod(input) && !WrongAuthVersion(input) && !ReservedUsed(input, auth)
  {
    var a := ConsumedIsLaid(input, auth, dst);
    var reply := input[..ReplyLength(input, auth, dst).value];
    hide Render;
    if IsRfcAcceptance(reply, auth) {
      var b :| Conforms(b, auth) && reply == Render(b);
      RenderedFields(a, b);
    }
    if Conforms(a, auth) {
      assert IsRfcAcceptance(reply, auth);
    }
  }

  /** A server that picks a method it was never offered is taken to ask for no
      authentication: for every such method, with or without credentials. */
  lemma UnofferedMethodTaken(choice: byte, auth: Option<Auth>, dst: Address, tail: bytes)
    requires choice != 0x00 && choice != 0x02 && choice != 0xFF && |dst.host| <= 255
    ensures
      var reply: bytes := [0x05, choice, 0x05, 0x00, 0x00, 0x01, 0, 0, 0, 0, 0, 0];
      ReplyLength(reply + tail, auth, dst) == Some(12) && !IsRfcAcceptance(reply, auth)
  {
    var reply: bytes := [0x05, choice, 0x05, 0x00, 0x00, 0x01, 0, 0, 0, 0, 0, 0];
    var a := Acceptance(choice, 0, 0, IPv4([0, 0, 0, 0]), [0, 0]);
    assert Render(a) == reply;
    LaidConsumed(a, auth, dst, tail);
    hide Render;
    if IsRfcAcceptance(reply, auth) {
      var b :| Conforms(b, auth) && reply == Render(b);
      RenderedFields(a, b);
    }
  }

  /** What a server reads out of the client's request. */
  function ParseConnect(b: bytes): Option<Address> {
    if |b| < 5 || b[..4] != [0x05, 0x01, 0x00, 0x03] || |b| != 7 + b[4] as int then None
    else Some(Address(b[5..|b| - 2], (b[|b| - 2] as int) * 256 + b[|b| - 1]))
  }

  /** The server is asked for exactly the address that was meant. */
  lemma RequestNamesTarget(dst: Address)
    requires |dst.host| <= 255 && dst.port < 0x1_0000
    ensures ParseConnect(ConnectRequest(dst)) == Some(dst)
  {
    var b := ConnectRequest(dst);
    assert b[..4] == [0x05, 0x01, 0x00, 0x03];
    assert b[5..|b| - 2] == dst.host;
  }

  /** What a client said to a server that chose method `choice`. */
  datatype ClientSaid = ClientSaid(methods: bytes, auth: Option<Auth>, dst: Address)

  datatype AuthRead = AuthRead(auth: Auth, rest: bytes)

  /** The server's reading of section 2 of RFC 1929: version, user name, password. */
  function ReadAuth(b: bytes): Option<AuthRead> {
    if |b| < 2 || b[0] != 0x01 || |b| < 3 + b[1] as int then None
    else
      var u := 2 + b[1] as int;
      var p := u + 1 + b[u] as int;
      if |b| < p then None else Some(AuthRead(Auth(b[2..u], b[u + 1..p]), b[p..]))
  }

  /** And of the whole conversation, after section 3 of RFC 1928. */
  function ReadClient(b: bytes, choice: byte): Option<ClientSaid> {
    if |b| < 2 || b[0] != 0x05 || |b| < 2 + b[1] as int then None
    else
      var n := 2 + b[1] as int;
      var said := if choice == 0x02 then ReadAuth(b[n..]) else None;
      if choice == 0x02 && said.None? then None
      else
        match ParseConnect(if said.Some? then said.value.rest else b[n..])
        case None => None
        case Some(dst) => Some(ClientSaid(b[2..n], if said.Some? then Some(said.value.auth) else None, dst))
  }

  lemma AuthIsRead(a: Auth, rest: bytes)
    requires |a.user| <= 255 && |a.pass| <= 255
    ensures ReadAuth(SubNegotiation(a) + rest) == Some(AuthRead(a, rest))
  {
    var b := SubNegotiation(a) + rest;
    var u := 2 + |a.user|;
    assert b[1] == |a.user| && b[2..u] == a.user && b[u] == |a.pass|;
    assert b[u + 1..u + 1 + |a.pass|] == a.pass && b[u + 1 + |a.pass|..] == rest;
  }

  /** In a negotiation that succeeds the server reads the methods on offer, the user
      name and the password it asked for, and the address that was meant. */
  lemma SentIsRead(input: bytes, auth: Option<Auth>, dst: Address)
    requires ReplyLength(input, auth, dst).Some? && dst.port < 0x1_0000
    ensures
      ReadClient(Sent(input, auth, dst), input[1])
      == Some(ClientSaid(if auth.Some? then [0x00, 0x02] else [0x00], if input[1] == 0x02 then auth else None, dst))
  {
    hide ConnectLength, ConnectRequest, SubNegotiation, ReadAuth, ParseConnect;
    var b := Sent(input, auth, dst);
    var n := |Greeting(auth)|;
    assert b[0] == 0x05 && b[1] as int + 2 == n && b[2..n] == Greeting(auth)[2..];
    RequestNamesTarget(dst);
    if input[1] == 0x02 {
      assert b[n..] == SubNegotiation(auth.value) + ConnectRequest(dst);
      AuthIsRead(auth.value, ConnectRequest(dst));
    } else {
      assert b[n..] == ConnectRequest(dst);
    }
  }
}
