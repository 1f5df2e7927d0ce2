/** Byte strings that hold decimal numbers and `host:port` addresses. */
module Text {
  import opened Common

  const PLUS: byte := 0x2B
  const COLON: byte := 0x3A
  const SPACE: byte := 0x20
  const CR: byte := 0x0D
  const LF: byte := 0x0A

  predicate IsDigit(b: byte) {
    0x30 <= b <= 0x39
  }

  predicate AllDigits(s: bytes) {
    forall i | 0 <= i < |s| :: IsDigit(s[i])
  }

  function Value(s: bytes): nat
    requires AllDigits(s)
  {
    if s == [] then 0 else 10 * Value(s[..|s| - 1]) + (s[|s| - 1] - 0x30)
  }

  /** Parsing into 16 bits, as the standard library does: an optional plus sign,
      at least one digit, nothing else, no overflow. */
  function ParseU16(s: bytes): Option<nat> {
    var digits := if s != [] && s[0] == PLUS then s[1..] else s;
    if digits != [] && AllDigits(digits) && Value(digits) < 0x1_0000 then Some(Value(digits)) else None
  }

  /** How a number is printed. */
  function Decimal(n: nat): (s: bytes)
    ensures s != [] && AllDigits(s)
  {
    if n < 10 then [0x30 + n] else Decimal(n / 10) + [0x30 + n % 10]
  }

  lemma {:induction false} DecimalValue(n: nat)
    ensures Value(Decimal(n)) == n
  {
    if n >= 10 {
      DecimalValue(n / 10);
      var s := Decimal(n);
      assert s[..|s| - 1] == Decimal(n / 10);
    }
  }

  lemma ParseDecimal(n: nat)
    requires n < 0x1_0000
    ensures ParseU16(Decimal(n)) == Some(n)
  {
    DecimalValue(n);
    assert IsDigit(Decimal(n)[0]);
  }

  function Zeros(k: nat): (s: bytes)
    ensures AllDigits(s)
  {
    seq(k, _ => 0x30)
  }

  /** A number as it may be spelled: a plus sign or none, any zeros, its digits. */
  function Spelling(plus: bool, k: nat, digits: bytes): bytes {
    (if plus then [PLUS] else []) + Zeros(k) + digits
  }

  lemma {:induction false} ZerosValue(k: nat)
    ensures Value(Zeros(k)) == 0
  {
    if k > 0 {
      ZerosValue(k - 1);
      assert Zeros(k)[..k - 1] == Zeros(k - 1);
    }
  }

  lemma {:induction false} PaddedValue(k: nat, n: nat)
    ensures AllDigits(Zeros(k) + Decimal(n)) && Value(Zeros(k) + Decimal(n)) == n
  {
    var s := Zeros(k) + Decimal(n);
    if n < 10 {
      ZerosValue(k);
      assert s[..|s| - 1] == Zeros(k);
    } else {
      PaddedValue(k, n / 10);
      assert s[..|s| - 1] == Zeros(k) + Decimal(n / 10);
    }
  }

  /** Every spelling of a number is its digits with zeros in front. */
  lemma {:induction false} ValuePadded(s: bytes) returns (k: nat)
    requires s != [] && AllDigits(s)
    ensures s == Zeros(k) + Decimal(Value(s))
  {
    var init, d, n := s[..|s| - 1], s[|s| - 1] - 0x30, Value(s);
    assert s == init + [0x30 + d];
    if init == [] {
      k := 0;
      assert Zeros(0) + Decimal(n) == Decimal(n);
    } else {
      k := ValuePadded(init);
      assert n == 10 * Value(init) + d && n / 10 == Value(init) && n % 10 == d;
      if n < 10 {
        assert Decimal(0) == [0x30] && Zeros(k) + [0x30] == Zeros(k + 1);
        k := k + 1;
      } else {
        assert Zeros(k) + Decimal(n) == Zeros(k) + Decimal(n / 10) + [0x30 + d];
      }
    }
  }

  lemma ParsedIsSpelling(s: bytes) returns (plus: bool, k: nat)
    requires ParseU16(s).Some?
    ensures ParseU16(s).value < 0x1_0000 && s == Spelling(plus, k, Decimal(ParseU16(s).value))
  {
    hide Value, Decimal, Zeros;
    plus := s[0] == PLUS;
    var digits := if plus then s[1..] else s;
    k := ValuePadded(digits);
    assert s == (if plus then [PLUS] else []) + digits;
  }

  lemma SpellingParses(plus: bool, k: nat, n: nat)
    requires n < 0x1_0000
    ensures ParseU16(Spelling(plus, k, Decimal(n))) == Some(n)
  {
    hide Value;
    var t := Zeros(k) + Decimal(n);
    var s := Spelling(plus, k, Decimal(n));
    PaddedValue(k, n);
    assert IsDigit(t[0]);
    if plus {
      assert s[0] == PLUS && s[1..] == t;
    } else {
      assert s == t;
    }
  }

  /** The parser, exactly: it accepts the spellings of the numbers that fit. */
  lemma ParseIff(s: bytes, n: nat)
    ensures ParseU16(s) == Some(n) <==> n < 0x1_0000 && exists plus, k :: s == Spelling(plus, k, Decimal(n))
  {
    hide ParseU16, Spelling, Decimal;
    if ParseU16(s) == Some(n) {
      var plus, k := ParsedIsSpelling(s);
    }
    if n < 0x1_0000 && exists plus, k :: s == Spelling(plus, k, Decimal(n)) {
      var plus, k :| s == Spelling(plus, k, Decimal(n));
      SpellingParses(plus, k, n);
    }
  }

  // ---- host:port -----------------------------------------------------------------

  /** The last position of a byte. */
  function RFind(s: bytes, b: byte): (r: Option<nat>)
    ensures r.None? ==> b !in s
    ensures r.Some? ==> r.value < |s| && s[r.value] == b && b !in s[r.value + 1..]
  {
    if s == [] then None
    else if s[|s| - 1] == b then Some(|s| - 1)
    else
      var r := RFind(s[..|s| - 1], b);
      assert r.Some? ==> s[r.value + 1..] == s[..|s| - 1][r.value + 1..] + [s[|s| - 1]];
      r
  }

  datatype Address = Address(host: bytes, port: nat)

  /** `parse_addr`: split at the last colon. */
  function ParseAddr(s: bytes): Option<Address> {
    match RFind(s, COLON)
    case None => None
    case Some(k) =>
      match ParseU16(s[k + 1..])
      case None => None
      case Some(port) => Some(Address(s[..k], port))
  }

  function FormatAddr(a: Address): bytes {
    a.host + [COLON] + Decimal(a.port)
  }

  /** What an address string says: a host, a colon and a port in one of its spellings. */
  ghost predicate NamesAddr(s: bytes, a: Address) {
    a.port < 0x1_0000 && exists plus, k :: s == a.host + [COLON] + Spelling(plus, k, Decimal(a.port))
  }

  lemma {:induction false} LastIs(s: bytes, b: byte, k: nat)
    requires k < |s| && s[k] == b && b !in s[k + 1..]
    ensures RFind(s, b) == Some(k)
  {
    var n := |s| - 1;
    if k < n {
      assert s[k + 1..] == s[..n][k + 1..] + [s[n]];
      LastIs(s[..n], b, k);
    }
  }

  lemma SplitsAtLast(host: bytes, port: bytes)
    requires COLON !in port
    ensures RFind(host + [COLON] + port, COLON) == Some(|host|)
  {
    hide RFind;
    var s := host + [COLON] + port;
    assert s[|host|] == COLON && s[|host| + 1..] == port;
    LastIs(s, COLON, |host|);
  }

  /** `parse_addr`, exactly. */
  lemma ParseAddrIff(s: bytes, a: Address)
    ensures ParseAddr(s) == Some(a) <==> NamesAddr(s, a)
  {
    hide ParseU16, Spelling, Decimal, RFind;
    if ParseAddr(s) == Some(a) {
      var h := RFind(s, COLON).value;
      assert s == s[..h] + [COLON] + s[h + 1..];
      ParseIff(s[h + 1..], a.port);
      var plus, k :| s[h + 1..] == Spelling(plus, k, Decimal(a.port));
      assert s == a.host + [COLON] + Spelling(plus, k, Decimal(a.port));
    }
    if NamesAddr(s, a) {
      var plus, k :| s == a.host + [COLON] + Spelling(plus, k, Decimal(a.port));
      var port := Spelling(plus, k, Decimal(a.port));
      NoColonInside(plus, k, a.port);
      SplitsAtLast(a.host, port);
      assert s[..|a.host|] == a.host && s[|a.host| + 1..] == port;
      SpellingParses(plus, k, a.port);
    }
  }

  lemma NoColonInside(plus: bool, k: nat, n: nat)
    ensures COLON !in Spelling(plus, k, Decimal(n))
  {
    assert AllDigits(Zeros(k)) && AllDigits(Decimal(n));
  }

  /** Every host, colons of its own included, and every port come back. */
  lemma ParseFormatted(a: Address)
    requires a.port < 0x1_0000
    ensures ParseAddr(FormatAddr(a)) == Some(a)
  {
    FormatNames(a);
    ParseAddrIff(FormatAddr(a), a);
  }

  lemma FormatNames(a: Address)
    requires a.port < 0x1_0000
    ensures NamesAddr(FormatAddr(a), a)
  {
    assert Spelling(false, 0, Decimal(a.port)) == Decimal(a.port);
  }
}
