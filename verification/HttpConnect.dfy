/** HTTP CONNECT negotiation (src/proxy/http_connect.rs). */
module HttpConnect {
  import opened Common
  import opened Text
  import opened ProxyIo
  import opened Utf8
  import Base64

  const MAX_RESPONSE := 8192
  const CRLF: bytes := [CR, LF]
  const BLANK_LINE: bytes := [CR, LF, CR, LF]

  // "CONNECT ", " HTTP/1.1", "Host: " and "Proxy-Authorization: Basic ".
  const CONNECT: bytes := [0x43, 0x4F, 0x4E, 0x4E, 0x45, 0x43, 0x54, 0x20]
  const HTTP11: bytes := [0x20, 0x48, 0x54, 0x54, 0x50, 0x2F, 0x31, 0x2E, 0x31]
  const HOST: bytes := [0x48, 0x6F, 0x73, 0x74, 0x3A, 0x20]
  const BASIC: bytes :=
    [0x50, 0x72, 0x6F, 0x78, 0x79, 0x2D, 0x41, 0x75, 0x74, 0x68, 0x6F, 0x72, 0x69, 0x7A, 0x61, 0x74, 0x69, 0x6F, 0x6E, 0x3A, 0x20, 0x42, 0x61, 0x73, 0x69, 0x63, 0x20]

  // ---- What the client sends -----------------------------------------------------------

  function Credentials(a: Auth): bytes {
    a.user + [COLON] + a.pass
  }

  function RequestLine(dst: Address): bytes {
    CONNECT + FormatAddr(dst) + HTTP11
  }

  function AuthLine(a: Auth): bytes {
    BASIC + Base64.Encode(Credentials(a))
  }

  function Request(dst: Address, auth: Option<Auth>): bytes {
    RequestLine(dst) + CRLF
    + (HOST + FormatAddr(dst) + CRLF)
    + (if auth.Some? then AuthLine(auth.value) + CRLF else [])
    + CRLF
  }

  // ---- Lines, as both ends take them apart -----------------------------------------------

  /** The first position of a byte. */
  function Find(s: bytes, b: byte): (r: Option<nat>)
    ensures r.None? ==> b !in s
    ensures r.Some? ==> r.value < |s| && s[r.value] == b && b !in s[..r.value]
  {
    if s == [] then None
    else if s[0] == b then Some(0)
    else
      match Find(s[1..], b)
      case None => None
      case Some(k) =>
        assert s[..k + 1] == [s[0]] + s[1..][..k];
        Some(k + 1)
  }

  /** Up to the line feed, less one carriage return before it. */
  function Line(s: bytes): (r: Option<bytes>)
    ensures r.Some? ==> LF !in r.value
  {
    match Find(s, LF)
    case None => None
    case Some(k) => Some(if k > 0 && s[k - 1] == CR then s[..k - 1] else s[..k])
  }

  function AfterLine(s: bytes): (r: bytes)
    requires Line(s).Some?
    ensures |r| < |s|
  {
    s[Find(s, LF).value + 1..]
  }

  /** What stands between the first blank and the second, or the end. */
  function SecondToken(s: bytes): (r: Option<bytes>)
    ensures r.Some? ==> SPACE !in r.value && forall b | b in r.value :: b in s
  {
    match Find(s, SPACE)
    case None => None
    case Some(k) =>
      match Find(s[k + 1..], SPACE)
      case None => Some(s[k + 1..])
      case Some(j) => Some(s[k + 1..][..j])
  }

  lemma FindAt(s: bytes, b: byte, k: nat)
    requires k < |s| && s[k] == b && b !in s[..k]
    ensures Find(s, b) == Some(k)
  {
    var j := Find(s, b).value;
    assert forall i | 0 <= i < j :: s[i] in s[..j];
    assert forall i | 0 <= i < k :: s[i] in s[..k];
  }

  lemma LineSplits(text: bytes, rest: bytes)
    requires LF !in text
    ensures
      var s := text + CRLF + rest;
      Line(s) == Some(text) && AfterLine(s) == rest
  {
    var s := text + CRLF + rest;
    assert s[..|text| + 1] == text + [CR] && s[|text| + 1] == LF;
    FindAt(s, LF, |text| + 1);
    assert s[|text|] == CR && s[..|text|] == text && s[|text| + 2..] == rest;
  }

  lemma TokenSplits(first: bytes, second: bytes, after: bytes)
    requires SPACE !in first && SPACE !in second && (after == [] || after[0] == SPACE)
    ensures SecondToken(first + [SPACE] + second + after) == Some(second)
  {
    var s := first + [SPACE] + second + after;
    assert s[..|first|] == first;
    FindAt(s, SPACE, |first|);
    var t := s[|first| + 1..];
    assert t == second + after;
    if after == [] {
      assert t == second;
    } else {
      assert t[..|second|] == second;
      FindAt(t, SPACE, |second|);
    }
  }

  // ---- The proxy's side of the request ------------------------------------------------------

  datatype Seen = Seen(target: Address, auth: Option<Auth>)

  /** A text of the protocol, octet by octet. */
  function Ascii(text: string): bytes
    requires forall i | 0 <= i < |text| :: text[i] < 128 as char
  {
    seq(|text|, i requires 0 <= i < |text| => text[i] as int)
  }

  /** The client's words are those of the protocol. */
  lemma WordsAreRight()
    ensures CONNECT == Ascii("CONNECT ") && HTTP11 == Ascii(" HTTP/1.1")
    ensures HOST == Ascii("Host: ") && BASIC == Ascii("Proxy-Authorization: Basic ")
  {
  }

  /** Basic credentials: the user name ends at the first colon. */
  function ReadCredentials(b: bytes): (r: Option<Auth>)
    ensures r.Some? ==> COLON !in r.value.user
  {
    match Find(b, COLON)
    case None => None
    case Some(k) => Some(Auth(b[..k], b[k + 1..]))
  }

  function ReadBasic(line: bytes): (r: Option<Auth>)
    ensures r.Some? ==> COLON !in r.value.user
  {
    var field := Ascii("Proxy-Authorization: Basic ");
    if !(field <= line) then None
    else
      match Base64.Decode(line[|field|..])
      case None => None
      case Some(b) => ReadCredentials(b)
  }

  /** The header lines up to the blank one; `None` if there is no blank one. */
  function Headers(s: bytes): Option<seq<bytes>>
    decreases |s|
  {
    match Line(s)
    case None => None
    case Some(text) =>
      if text == [] then Some([])
      else
        match Headers(AfterLine(s))
        case None => None
        case Some(more) => Some([text] + more)
  }

  function FirstBasic(lines: seq<bytes>): (r: Option<Auth>)
    ensures r.Some? ==> COLON !in r.value.user
  {
    if lines == [] then None
    else if ReadBasic(lines[0]).Some? then ReadBasic(lines[0])
    else FirstBasic(lines[1..])
  }

  /** What stands between the method and the version, if these are what they should be
      and it is one word. */
  function RequestTarget(line: bytes): (r: Option<bytes>)
    ensures r.Some? ==> SPACE !in r.value && forall b | b in r.value :: b in line
  {
    var before, after := Ascii("CONNECT "), Ascii(" HTTP/1.1");
    if |line| < |before| + |after| || line[..|before|] != before || line[|line| - |after|..] != after then None
    else
      var target := line[|before|..|line| - |after|];
      if SPACE in target then None else Some(target)
  }

  /** A CONNECT request for HTTP/1.1, with a Host field that agrees with its target. */
  function ReadRequest(s: bytes): Option<Seen> {
    match Line(s)
    case None => None
    case Some(line) =>
      var target := RequestTarget(line);
      var headers := Headers(AfterLine(s));
      if target.None? || headers.None? || Ascii("Host: ") + target.value !in headers.value then None
      else
        match ParseAddr(target.value)
        case None => None
        case Some(dst) => Some(Seen(dst, FirstBasic(headers.value)))
  }

  predicate HostPlain(host: bytes) {
    SPACE !in host && LF !in host
  }

  lemma AddrPlain(dst: Address)
    requires HostPlain(dst.host)
    ensures HostPlain(FormatAddr(dst))
  {
    assert AllDigits(Decimal(dst.port));
  }

  lemma TargetRead(dst: Address)
    requires HostPlain(dst.host)
    ensures LF !in RequestLine(dst) && RequestTarget(RequestLine(dst)) == Some(FormatAddr(dst))
  {
    AddrPlain(dst);
    WordsAreRight();
    hide FormatAddr, Ascii;
    var line, n := RequestLine(dst), |FormatAddr(dst)|;
    assert line[..8] == CONNECT && line[8 + n..] == HTTP11 && line[8..8 + n] == FormatAddr(dst);
  }

  lemma BasicRead(a: Auth)
    requires COLON !in a.user
    ensures AuthLine(a) != [] && LF !in AuthLine(a) && ReadBasic(AuthLine(a)) == Some(a)
  {
    WordsAreRight();
    hide Base64.Encode, Base64.Decode, Ascii;
    var c := Credentials(a);
    var e := Base64.Encode(c);
    forall i | 0 <= i < |e| ensures e[i] != LF {
      Base64.Printable(c, i);
    }
    Base64.DecodeEncode(c);
    assert AuthLine(a)[|BASIC|..] == e;
    assert c[..|a.user|] == a.user && c[|a.user| + 1..] == a.pass;
    FindAt(c, COLON, |a.user|);
  }

  lemma HostLineIsNotBasic(dst: Address)
    ensures ReadBasic(HOST + FormatAddr(dst)).None?
  {
    WordsAreRight();
    hide Ascii;
    assert (HOST + FormatAddr(dst))[0] == HOST[0] != BASIC[0];
  }

  lemma HeadersRead(dst: Address, auth: Option<Auth>)
    requires HostPlain(dst.host) && (auth.Some? ==> COLON !in auth.value.user)
    ensures
      var own := if auth.Some? then AuthLine(auth.value) + CRLF else [];
      var lines := if auth.Some? then [AuthLine(auth.value)] else [];
      Headers(HOST + FormatAddr(dst) + CRLF + own + CRLF) == Some([HOST + FormatAddr(dst)] + lines)
  {
    hide AuthLine, FormatAddr, Headers;
    AddrPlain(dst);
    var host := HOST + FormatAddr(dst);
    var own := if auth.Some? then AuthLine(auth.value) + CRLF else [];
    var lines := if auth.Some? then [AuthLine(auth.value)] else [];
    NoHeaders();
    if auth.Some? {
      BasicRead(auth.value);
      MoreHeaders(AuthLine(auth.value), CRLF, []);
      assert lines == [AuthLine(auth.value)] + [];
    } else {
      assert own + CRLF == CRLF;
    }
    MoreHeaders(host, own + CRLF, lines);
    assert host + CRLF + own + CRLF == host + CRLF + (own + CRLF);
  }

  lemma NoHeaders()
    ensures Headers(CRLF) == Some([])
  {
    LineSplits([], []);
    assert [] + CRLF + [] == CRLF;
  }

  lemma MoreHeaders(text: bytes, rest: bytes, lines: seq<bytes>)
    requires LF !in text && text != [] && Headers(rest) == Some(lines)
    ensures Headers(text + CRLF + rest) == Some([text] + lines)
  {
    hide Line, AfterLine;
    LineSplits(text, rest);
  }

  /** The proxy reads back the target and the credentials the client was given
      exactly when the host holds neither a blank nor a line feed and the user name
      holds no colon. */
  lemma RequestRead(dst: Address, auth: Option<Auth>)
    requires dst.port < 0x1_0000
    ensures
      ReadRequest(Request(dst, auth)) == Some(Seen(dst, auth))
      <==> HostPlain(dst.host) && (auth.Some? ==> COLON !in auth.value.user)
  {
    WordsAreRight();
    hide Headers, FirstBasic, FormatAddr, AuthLine, RequestLine, RequestTarget, Ascii, ParseAddr;
    var s := Request(dst, auth);
    if HostPlain(dst.host) && (auth.Some? ==> COLON !in auth.value.user) {
      var own := if auth.Some? then AuthLine(auth.value) + CRLF else [];
      var rest := HOST + FormatAddr(dst) + CRLF + own + CRLF;
      assert s == RequestLine(dst) + CRLF + rest;
      TargetRead(dst);
      LineSplits(RequestLine(dst), rest);
      ParseFormatted(dst);
      HeadersRead(dst, auth);
      FirstIsOwn(dst, auth);
    } else if ReadRequest(s) == Some(Seen(dst, auth)) {
      ReadIsPlain(s, dst, auth);
      assert false;
    }
  }

  lemma FirstIsOwn(dst: Address, auth: Option<Auth>)
    requires auth.Some? ==> COLON !in auth.value.user
    ensures
      var lines := if auth.Some? then [AuthLine(auth.value)] else [];
      FirstBasic([HOST + FormatAddr(dst)] + lines) == auth
  {
    hide AuthLine, FormatAddr, ReadBasic;
    HostLineIsNotBasic(dst);
    var lines := if auth.Some? then [AuthLine(auth.value)] else [];
    assert ([HOST + FormatAddr(dst)] + lines)[1..] == lines;
    if auth.Some? {
      BasicRead(auth.value);
    }
  }

  lemma ReadIsPlain(s: bytes, dst: Address, auth: Option<Auth>)
    requires ReadRequest(s) == Some(Seen(dst, auth))
    ensures HostPlain(dst.host) && (auth.Some? ==> COLON !in auth.value.user)
  {
    hide Headers;
    var line := Line(s).value;
    var target := RequestTarget(line).value;
    assert forall b | b in dst.host :: b in target;
  }

  // ---- The response ------------------------------------------------------------------------

  predicate EndsAt(s: bytes, k: nat) {
    4 <= k <= |s| && s[k - 4..k] == BLANK_LINE
  }

  /** A response head: up to the first blank line, within the limit. */
  predicate IsHead(h: bytes) {
    |h| <= MAX_RESPONSE && EndsAt(h, |h|) && forall k: nat | k < |h| :: !EndsAt(h, k)
  }

  predicate HeadAt(s: bytes, n: nat) {
    n <= |s| && IsHead(s[..n])
  }

  /** A head within a longer stream. */
  lemma HeadAtIff(s: bytes, n: nat)
    ensures HeadAt(s, n) <==> n <= 8192 && EndsAt(s, n) && forall k: nat | k < n :: !EndsAt(s, k)
  {
    if n <= |s| {
      forall k: nat | k <= n ensures EndsAt(s[..n], k) <==> EndsAt(s, k) {
        assert k >= 4 ==> s[..n][k - 4..k] == s[k - 4..k];
      }
    }
  }

  lemma HeadUnique(s: bytes, j: nat, k: nat)
    requires HeadAt(s, j) && HeadAt(s, k)
    ensures j == k
  {
    HeadAtIff(s, j);
    HeadAtIff(s, k);
  }

  function Status(head: bytes): Option<nat> {
    match Line(head)
    case None => None
    case Some(line) =>
      match SecondToken(line)
      case None => None
      case Some(code) => ParseU16(code)
  }

  predicate Accepts(head: bytes) {
    IsHead(head) && IsUtf8(head) && Status(head) == Some(200)
  }

  predicate AcceptedAt(s: bytes, n: nat) {
    n <= |s| && Accepts(s[..n])
  }

  /** How many bytes of `input` a successful negotiation consumes. */
  ghost function ReplyLength(input: bytes): (r: Option<nat>)
    ensures r.Some? ==> AcceptedAt(input, r.value)
    ensures r.None? ==> forall n :: !AcceptedAt(input, n)
  {
    if exists n :: AcceptedAt(input, n) then
      var n :| AcceptedAt(input, n);
      Some(n)
    else None
  }

  /** Whatever follows an accepted head is left on the stream. */
  lemma AcceptedConsumed(head: bytes, tail: bytes)
    requires Accepts(head)
    ensures ReplyLength(head + tail) == Some(|head|)
  {
    hide IsHead, IsUtf8, Status;
    var s := head + tail;
    assert s[..|head|] == head;
    assert AcceptedAt(s, |head|);
    HeadUnique(s, |head|, ReplyLength(s).value);
  }

  /** The one head there is decides. */
  lemma HeadDecides(s: bytes, n: nat)
    requires HeadAt(s, n)
    ensures ReplyLength(s) == if IsUtf8(s[..n]) && Status(s[..n]) == Some(200) then Some(n) else None
  {
    hide IsHead, IsUtf8, Status;
    assert IsUtf8(s[..n]) && Status(s[..n]) == Some(200) ==> AcceptedAt(s, n);
    if ReplyLength(s).Some? {
      HeadUnique(s, n, ReplyLength(s).value);
    }
  }

  const TWO_HUNDRED: bytes := [0x32, 0x30, 0x30]

  /** The ways to write 200 that the parser admits. */
  ghost predicate Is200(token: bytes) {
    exists plus, k :: token == Spelling(plus, k, TWO_HUNDRED)
  }

  lemma ParsesAs200(token: bytes)
    ensures ParseU16(token) == Some(200) <==> Is200(token)
  {
    var n := 200;
    assert n / 10 == 20 && n % 10 == 0;
    assert Decimal(20) == Decimal(2) + [0x30] && Decimal(2) == [0x32];
    assert Decimal(n) == TWO_HUNDRED;
    ParseIff(token, n);
  }

  /** For every status line that has a second word, whatever it is: the response is
      accepted exactly if that word is an optional plus sign, any number of zeros and
      then 200. */
  lemma StatusDecides(version: bytes, token: bytes, after: bytes, rest: bytes, tail: bytes)
    requires SPACE !in version && LF !in version && SPACE !in token && LF !in token
    requires LF !in after && (after == [] || after[0] == SPACE)
    requires
      var head := version + [SPACE] + token + after + CRLF + rest;
      IsHead(head) && IsUtf8(head)
    ensures
      var head := version + [SPACE] + token + after + CRLF + rest;
      ReplyLength(head + tail) == if Is200(token) then Some(|head|) else None
  {
    hide IsHead, IsUtf8, Is200, ParseU16;
    var line := version + [SPACE] + token + after;
    var head := line + CRLF + rest;
    LineSplits(line, rest);
    TokenSplits(version, token, after);
    assert Status(head) == ParseU16(token);
    ParsesAs200(token);
    assert (head + tail)[..|head|] == head;
    HeadDecides(head + tail, |head|);
  }

  /** A status line without a second word is refused. */
  lemma NoStatusRefused(line: bytes, rest: bytes, tail: bytes)
    requires SPACE !in line && LF !in line && IsHead(line + CRLF + rest)
    ensures ReplyLength(line + CRLF + rest + tail).None?
  {
    hide IsHead, IsUtf8;
    var head := line + CRLF + rest;
    LineSplits(line, rest);
    assert Find(line, SPACE).None?;
    assert Status(head).None?;
    assert (head + tail)[..|head|] == head;
    HeadDecides(head + tail, |head|);
  }

  /** The shortest responses with a given second word. */
  function Terse(token: bytes): bytes {
    [0x48, SPACE] + token + BLANK_LINE
  }

  /** So `+200`, `0200` and their like are taken for 200, as long as the response
      keeps within the limit... */
  lemma LenientStatus(plus: bool, k: nat, tail: bytes)
    ensures
      var response := Terse(Spelling(plus, k, TWO_HUNDRED));
      ReplyLength(response + tail) == if |response| <= MAX_RESPONSE then Some(|response|) else None
  {
    hide ReplyLength, Terse, Is200;
    var token := Spelling(plus, k, TWO_HUNDRED);
    SpelledIs200(plus, k);
    TerseDecides(token, tail);
  }

  lemma SpelledIs200(plus: bool, k: nat)
    ensures Is200(Spelling(plus, k, TWO_HUNDRED))
  {
    hide Spelling;
  }

  /** ... for instance. */
  lemma PlusTaken(tail: bytes)
    ensures ReplyLength([0x48, SPACE, PLUS, 0x32, 0x30, 0x30, CR, LF, CR, LF] + tail) == Some(10)
  {
    hide *;
    PlusSpelled();
    LenientStatus(true, 0, tail);
  }

  lemma PlusSpelled()
    ensures Terse(Spelling(true, 0, TWO_HUNDRED)) == [0x48, SPACE, PLUS, 0x32, 0x30, 0x30, CR, LF, CR, LF]
    ensures |Terse(Spelling(true, 0, TWO_HUNDRED))| == 10 <= MAX_RESPONSE
  {
    assert Spelling(true, 0, TWO_HUNDRED) == [PLUS, 0x32, 0x30, 0x30];
  }

  lemma TerseDecides(token: bytes, tail: bytes)
    requires token != [] && forall i | 0 <= i < |token| :: 0x2B <= token[i] < 0x80
    ensures
      ReplyLength(Terse(token) + tail)
      == if Is200(token) && |Terse(token)| <= MAX_RESPONSE then Some(|Terse(token)|) else None
  {
    var head := Terse(token);
    TerseFirstEnd(token, tail);
    assert head == [0x48] + [SPACE] + token + [] + CRLF + CRLF;
    assert forall i | 0 <= i < |head| :: head[i] < 0x80;
    hide IsHead, IsUtf8, Is200, EndsAt, Terse, HeadAt, ReplyLength;
    if |head| <= MAX_RESPONSE {
      HeadAtIff(head + tail, |head|);
      TerseIsHead(token, tail);
      AsciiIsUtf8(head);
      StatusDecides([0x48], token, [], CRLF, tail);
    } else {
      NoHead(head + tail, |head| - 1);
      NoReply(head + tail);
    }
  }

  lemma TerseIsHead(token: bytes, tail: bytes)
    requires HeadAt(Terse(token) + tail, |Terse(token)|)
    ensures IsHead(Terse(token))
  {
    hide IsHead;
    assert (Terse(token) + tail)[..|Terse(token)|] == Terse(token);
  }

  lemma TerseFirstEnd(token: bytes, tail: bytes)
    requires token != [] && forall i | 0 <= i < |token| :: 0x2B <= token[i]
    ensures EndsAt(Terse(token) + tail, |Terse(token)|) && NoneYet(Terse(token) + tail, |Terse(token)| - 1)
  {
    var s := Terse(token) + tail;
    var n := |Terse(token)|;
    assert s[n - 4..n] == BLANK_LINE;
    forall k: nat | k < n ensures !EndsAt(s, k) {
      if 4 <= k {
        assert s[k - 4..k][3] == s[k - 1] && s[k - 4..k][2] == s[k - 2] && s[k - 4..k][1] == s[k - 3];
      }
    }
  }

  /** No blank line ends within the first `n` bytes. */
  predicate NoneYet(s: bytes, n: nat) {
    forall k: nat | k <= n :: !EndsAt(s, k)
  }

  lemma NoHead(s: bytes, n: nat)
    requires n <= |s| && (n == |s| || n >= MAX_RESPONSE) && NoneYet(s, n)
    ensures forall k :: !HeadAt(s, k)
  {
    hide IsHead, HeadAt;
    forall k ensures !HeadAt(s, k) {
      HeadAtIff(s, k);
    }
  }

  /** The loop that reads one byte at a time: the head and nothing after it, or a
      failure if no head within the limit is there. */
  method ReadHead(io: Duplex) returns (head: Option<bytes>)
    modifies io`input
    ensures head.Some? ==> HeadAt(old(io.input), |head.value|) && old(io.input) == head.value + io.input
    ensures head.None? ==> forall k :: !HeadAt(old(io.input), k)
  {
    hide IsHead, HeadAt;
    ghost var input := io.input;
    var buf: bytes := [];
    while true
      invariant |buf| <= |input| && |buf| <= MAX_RESPONSE
      invariant buf == input[..|buf|] && io.input == input[|buf|..]
      invariant NoneYet(input, |buf|)
      decreases MAX_RESPONSE - |buf|
    {
      ghost var n := |buf|;
      var b := io.ReadExact(1);
      if b.None? {
        NoHead(input, n);
        return None;
      }
      buf := buf + b.value;
      assert buf == input[..n + 1];
      if |buf| > MAX_RESPONSE {
        NoHead(input, n);
        return None;
      }
      EndSeen(input, n + 1);
      if EndsAt(buf, |buf|) {
        HeadAtIff(input, n + 1);
        assert buf + io.input == input;
        return Some(buf);
      }
    }
  }

  lemma EndSeen(s: bytes, n: nat)
    requires n <= |s|
    ensures EndsAt(s[..n], n) <==> EndsAt(s, n)
  {
    assert n >= 4 ==> s[..n][n - 4..n] == s[n - 4..n];
  }

  lemma NoReply(s: bytes)
    requires forall k :: !HeadAt(s, k)
    ensures ReplyLength(s).None?
  {
    hide IsHead, IsUtf8, Status;
    assert forall n :: AcceptedAt(s, n) ==> HeadAt(s, n);
  }

  method BuildRequest(dst: Address, auth: Option<Auth>) returns (request: bytes)
    ensures request == Request(dst, auth)
  {
    hide FormatAddr, Base64.Encode;
    var addr := FormatAddr(dst);
    request := CONNECT + addr + HTTP11 + CRLF;
    request := request + HOST + addr + CRLF;
    if auth.Some? {
      var encoded := Base64.Base64Encode(auth.value.user + [COLON] + auth.value.pass);
      request := request + BASIC + encoded + CRLF;
    }
    request := request + CRLF;
    assert request == Request(dst, auth);
  }

  /** `tunnel_http_connect`: it succeeds exactly on an acceptance, and then the
      stream stands at the first byte after the blank line. */
  method TunnelHttp(io: Duplex, dst: Address, auth: Option<Auth>) returns (ok: bool)
    modifies io
    ensures ok <==> ReplyLength(old(io.input)).Some?
    ensures ok ==>
              && io.input == old(io.input)[ReplyLength(old(io.input)).value..]
              && io.output == old(io.output) + Request(dst, auth)
  {
    hide *;
    ghost var input := io.input;
    var request := BuildRequest(dst, auth);
    io.WriteAll(request);
    assert io.input == input;
    var head := ReadHead(io);
    if head.None? {
      NoReply(input);
      return false;
    }
    assert input[..|head.value|] == head.value;
    HeadDecides(input, |head.value|);
    return IsUtf8(head.value) && Status(head.value) == Some(200);
  }
}
