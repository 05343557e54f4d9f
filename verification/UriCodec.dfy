/** Percent-encoding as `urllib.parse.quote(s, safe='')` writes it, and reading it back (sections 2.1
    to 2.3 of RFC 3986). Text is encoded as UTF-8 first. */
module UriCodec {
  import opened Wrappers

  type Octet = n: int | 0 <= n < 256

  // ---- UTF-8 ----

  function Utf8(c: char): seq<Octet>
  {
    var n := c as int;
    if n < 0x80 then [n]
    else if n < 0x800 then [0xc0 + n / 64, 0x80 + n % 64]
    else if n < 0x10000 then [0xe0 + n / 4096, 0x80 + n / 64 % 64, 0x80 + n % 64]
    else [0xf0 + n / 262144, 0x80 + n / 4096 % 64, 0x80 + n / 64 % 64, 0x80 + n % 64]
  }

  function Encode(s: string): seq<Octet>
  {
    if s == "" then [] else Utf8(s[0]) + Encode(s[1..])
  }

  predicate Continues(b: seq<Octet>, count: nat)
  {
    |b| > count && forall i :: 1 <= i <= count ==> 0x80 <= b[i] < 0xc0
  }

  predicate IsScalar(n: int)
  {
    0 <= n < 0xd800 || 0xe000 <= n < 0x110000
  }

  /** The number and the length of the first encoded character; overlong forms are refused. */
  function FirstScalar(b: seq<Octet>): Option<(int, nat)>
    requires b != []
  {
    if b[0] < 0x80 then Some((b[0], 1))
    else if 0xc0 <= b[0] < 0xe0 && Continues(b, 1) then
      var n: int := (b[0] as int - 0xc0) * 64 + (b[1] as int - 0x80);
      if n < 0x80 then None else Some((n, 2))
    else if 0xe0 <= b[0] < 0xf0 && Continues(b, 2) then
      var n: int := (b[0] as int - 0xe0) * 4096 + (b[1] as int - 0x80) * 64 + (b[2] as int - 0x80);
      if n < 0x800 then None else Some((n, 3))
    else if 0xf0 <= b[0] < 0xf8 && Continues(b, 3) then
      var n: int := (b[0] as int - 0xf0) * 262144 + (b[1] as int - 0x80) * 4096 + (b[2] as int - 0x80) * 64 + (b[3] as int - 0x80);
      if n < 0x10000 then None else Some((n, 4))
    else None
  }

  function Decode(b: seq<Octet>): Option<string>
    decreases |b|
  {
    if b == [] then Some("")
    else
      match FirstScalar(b)
      case None => None
      case Some((n, size)) =>
        if !IsScalar(n) || size > |b| || size == 0 then None
        else
          match Decode(b[size..])
          case None => None
          case Some(rest) => Some([n as char] + rest)
  }

  lemma Digits64(n: nat)
    ensures n == n / 64 * 64 + n % 64
    ensures n / 64 == n / 4096 * 64 + n / 64 % 64
    ensures n / 4096 == n / 262144 * 64 + n / 4096 % 64
  {
  }

  lemma TwoRead(c: char, rest: seq<Octet>)
    requires 0x80 <= c as int < 0x800
    ensures FirstScalar(Utf8(c) + rest) == Some((c as int, 2))
  {
    var b, n := Utf8(c) + rest, c as int;
    assert b[0] == 0xc0 + n / 64 && b[1] == 0x80 + n % 64;
    assert Continues(b, 1);
    Digits64(n);
  }

  lemma ThreeRead(c: char, rest: seq<Octet>)
    requires 0x800 <= c as int < 0x10000
    ensures FirstScalar(Utf8(c) + rest) == Some((c as int, 3))
  {
    var b, n := Utf8(c) + rest, c as int;
    assert b[0] == 0xe0 + n / 4096 && b[1] == 0x80 + n / 64 % 64 && b[2] == 0x80 + n % 64;
    assert Continues(b, 2);
    Digits64(n);
  }

  lemma FourRead(c: char, rest: seq<Octet>)
    requires 0x10000 <= c as int
    ensures FirstScalar(Utf8(c) + rest) == Some((c as int, 4))
  {
    var b, n := Utf8(c) + rest, c as int;
    assert b[0] == 0xf0 + n / 262144 && b[1] == 0x80 + n / 4096 % 64 && b[2] == 0x80 + n / 64 % 64 && b[3] == 0x80 + n % 64;
    assert Continues(b, 3);
    Digits64(n);
  }

  lemma ScalarReads(c: char, rest: seq<Octet>)
    ensures FirstScalar(Utf8(c) + rest) == Some((c as int, |Utf8(c)|)) && IsScalar(c as int)
  {
    var n := c as int;
    if n < 0x80 {
    } else if n < 0x800 {
      TwoRead(c, rest);
    } else if n < 0x10000 {
      ThreeRead(c, rest);
    } else {
      FourRead(c, rest);
    }
  }

  lemma {:induction false} DecodeEncode(s: string)
    ensures Decode(Encode(s)) == Some(s)
  {
    if s != "" {
      var rest := Encode(s[1..]);
      ScalarReads(s[0], rest);
      assert (Utf8(s[0]) + rest)[|Utf8(s[0])|..] == rest;
      DecodeEncode(s[1..]);
      assert [s[0]] + s[1..] == s;
    }
  }

  // ---- Percent-encoding ----

  predicate Unreserved(c: char)
  {
    'a' <= c <= 'z' || 'A' <= c <= 'Z' || '0' <= c <= '9' || c == '-' || c == '.' || c == '_' || c == '~'
  }

  function HexDigit(n: int): char
    requires 0 <= n < 16
  {
    if n < 10 then ('0' as int + n) as char else ('A' as int + n - 10) as char
  }

  function HexValue(c: char): Option<int>
  {
    if '0' <= c <= '9' then Some(c as int - '0' as int)
    else if 'A' <= c <= 'F' then Some(c as int - 'A' as int + 10)
    else if 'a' <= c <= 'f' then Some(c as int - 'a' as int + 10)
    else None
  }

  function QuoteOctet(b: Octet): string
  {
    if b < 128 && Unreserved(b as char) then [b as char] else ['%', HexDigit(b / 16), HexDigit(b % 16)]
  }

  function QuoteOctets(b: seq<Octet>): string
  {
    if b == [] then "" else QuoteOctet(b[0]) + QuoteOctets(b[1..])
  }

  function Quote(s: string): string
  {
    QuoteOctets(Encode(s))
  }

  /** The octets of a text; `%` must start a triplet. */
  function Octets(s: string): Option<seq<Octet>>
  {
    if s == "" then Some([])
    else if s[0] != '%' then
      match Octets(s[1..])
      case None => None
      case Some(rest) => Some(Utf8(s[0]) + rest)
    else if |s| < 3 || HexValue(s[1]).None? || HexValue(s[2]).None? then None
    else
      match Octets(s[3..])
      case None => None
      case Some(rest) => Some([HexValue(s[1]).value * 16 + HexValue(s[2]).value] + rest)
  }

  function Unquote(s: string): Option<string>
  {
    match Octets(s)
    case None => None
    case Some(b) => Decode(b)
  }

  lemma OctetReads(b: Octet, rest: string)
    ensures Octets(QuoteOctet(b) + rest) == (match Octets(rest) case None => None case Some(more) => Some([b] + more))
  {
    var s := QuoteOctet(b) + rest;
    if b < 128 && Unreserved(b as char) {
      assert s[1..] == rest;
    } else {
      HexReads(b / 16);
      HexReads(b % 16);
      assert s[0] == '%' && s[1] == HexDigit(b / 16) && s[2] == HexDigit(b % 16) && s[3..] == rest;
    }
  }

  lemma HexReads(n: int)
    requires 0 <= n < 16
    ensures HexValue(HexDigit(n)) == Some(n)
  {
  }

  lemma {:induction false} OctetsQuoted(b: seq<Octet>)
    ensures Octets(QuoteOctets(b)) == Some(b)
  {
    if b != [] {
      OctetReads(b[0], QuoteOctets(b[1..]));
      OctetsQuoted(b[1..]);
      assert [b[0]] + b[1..] == b;
    }
  }

  /** Whatever the text, percent-encoding it loses nothing. */
  lemma QuoteReadsBack(s: string)
    ensures Unquote(Quote(s)) == Some(s)
  {
    OctetsQuoted(Encode(s));
    DecodeEncode(s);
  }

  lemma {:induction false} QuotedOctetsAreSafe(b: seq<Octet>)
    ensures forall c :: c in QuoteOctets(b) ==> Unreserved(c) || c == '%'
  {
    if b != [] {
      QuotedOctetsAreSafe(b[1..]);
      assert Unreserved(HexDigit(b[0] / 16)) && Unreserved(HexDigit(b[0] % 16));
    }
  }

  /** An encoded text holds none of the characters that delimit the parts of a URI. */
  lemma QuoteIsSafe(s: string)
    ensures forall c :: c in Quote(s) ==> Unreserved(c) || c == '%'
  {
    QuotedOctetsAreSafe(Encode(s));
  }

  lemma {:induction false} PlainOctets(s: string)
    requires '%' !in s
    ensures Octets(s) == Some(Encode(s))
  {
    if s != "" {
      PlainOctets(s[1..]);
    }
  }

  /** A text without `%` reads as itself. */
  lemma PlainReads(s: string)
    requires '%' !in s
    ensures Unquote(s) == Some(s)
  {
    PlainOctets(s);
    DecodeEncode(s);
  }
}
