/** The string operations of Python that the panel relies on: `strip`, `split`,
    `int(...)` and decimal printing. */
module Text {
  import opened Wrappers

  predicate IsSpace(c: char)
  {
    var n := c as int;
    || 0x09 <= n <= 0x0d || 0x1c <= n <= 0x20 || n == 0x85 || n == 0xa0 || n == 0x1680
    || 0x2000 <= n <= 0x200a || n == 0x2028 || n == 0x2029 || n == 0x202f || n == 0x205f || n == 0x3000
  }

  function StripLeft(s: string): (r: string)
    ensures r != "" ==> !IsSpace(r[0])
    ensures |r| <= |s| && r == s[|s| - |r|..]
  {
    if s != "" && IsSpace(s[0]) then StripLeft(s[1..]) else s
  }

  function StripRight(s: string): (r: string)
    ensures r != "" ==> !IsSpace(r[|r| - 1])
    ensures r <= s
  {
    if s != "" && IsSpace(s[|s| - 1]) then StripRight(s[..|s| - 1]) else s
  }

  function Strip(s: string): (r: string)
    ensures r != "" ==> Trimmed(r)
  {
    if s != "" && IsSpace(s[0]) then Strip(s[1..]) else StripRight(s)
  }

  /** Not empty, and no white space at either end. */
  predicate Trimmed(s: string)
  {
    s != "" && !IsSpace(s[0]) && !IsSpace(s[|s| - 1])
  }

  lemma StripTrimmed(s: string)
    requires Trimmed(s)
    ensures Strip(s) == s
  {
  }

  lemma StripIdempotent(s: string)
    ensures Strip(Strip(s)) == Strip(s)
  {
    var r := Strip(s);
  }

  /** Appends each candidate, stripped, unless it is empty or already there. */
  function AddStripped(hosts: seq<string>, candidates: seq<string>): (r: seq<string>)
    decreases |candidates|
  {
    if candidates == [] then hosts
    else
      var value := Strip(candidates[0]);
      AddStripped(if value != "" && value !in hosts then hosts + [value] else hosts, candidates[1..])
  }

  predicate NoSpaces(s: string)
  {
    forall c :: c in s ==> !IsSpace(c)
  }

  lemma StripClean(s: string)
    requires NoSpaces(s)
    ensures Strip(s) == s
  {
    if s != "" {
      assert s[0] in s && s[|s| - 1] in s;
    }
  }

  /** `s.split(c)`: always at least one piece. */
  function Split(s: string, c: char): (r: seq<string>)
    ensures |r| > 0
  {
    if s == "" then [""]
    else
      var rest := Split(s[1..], c);
      if s[0] == c then [""] + rest else [[s[0]] + rest[0]] + rest[1..]
  }

  function Join(parts: seq<string>, c: char): string
  {
    if |parts| == 0 then ""
    else if |parts| == 1 then parts[0]
    else parts[0] + [c] + Join(parts[1..], c)
  }

  lemma {:induction false} SplitCons(a: string, rest: string, c: char)
    requires c !in a
    ensures Split(a + [c] + rest, c) == [a] + Split(rest, c)
  {
    var s := a + [c] + rest;
    if a == "" {
      assert s[1..] == rest;
    } else {
      assert s[1..] == a[1..] + [c] + rest;
      SplitCons(a[1..], rest, c);
      assert a == [a[0]] + a[1..];
    }
  }

  lemma {:induction false} SplitWhole(a: string, c: char)
    requires c !in a
    ensures Split(a, c) == [a]
  {
    if a != "" {
      SplitWhole(a[1..], c);
      assert a == [a[0]] + a[1..];
    }
  }

  lemma {:induction false} SplitJoin(parts: seq<string>, c: char)
    requires |parts| > 0
    requires forall p :: p in parts ==> c !in p
    ensures Split(Join(parts, c), c) == parts
  {
    if |parts| == 1 {
      SplitWhole(parts[0], c);
    } else {
      SplitJoin(parts[1..], c);
      SplitCons(parts[0], Join(parts[1..], c), c);
      assert parts == [parts[0]] + parts[1..];
    }
  }

  lemma {:induction false} SplitPieces(s: string, c: char, p: string)
    requires p in Split(s, c)
    ensures c !in p
  {
    if s != "" {
      var rest := Split(s[1..], c);
      SplitPieces(s[1..], c, rest[0]);
      if p in rest {
        SplitPieces(s[1..], c, p);
      }
    }
  }

  /** The part before the first `c`, or all of it. */
  function BeforeFirst(s: string, c: char): (r: string)
    ensures r <= s && c !in r
  {
    if s == "" || s[0] == c then "" else [s[0]] + BeforeFirst(s[1..], c)
  }

  lemma {:induction false} FirstAt(a: string, c: char, rest: string)
    requires c !in a
    ensures BeforeFirst(a + [c] + rest, c) == a
  {
    var s := a + [c] + rest;
    if a != "" {
      assert s[1..] == a[1..] + [c] + rest;
      FirstAt(a[1..], c, rest);
    }
  }

  predicate IsDigit(c: char)
  {
    '0' <= c <= '9'
  }

  predicate AllDigits(s: string)
  {
    forall c :: c in s ==> IsDigit(c)
  }

  function Decimal(n: nat): (s: string)
    ensures s != "" && AllDigits(s)
    decreases n
  {
    var last := [('0' as int + n % 10) as char];
    if n < 10 then last else Decimal(n / 10) + last
  }

  function DigitsValue(s: string): nat
    requires AllDigits(s)
  {
    if s == "" then 0
    else
      assert s[|s| - 1] in s;
      DigitsValue(s[..|s| - 1]) * 10 + (s[|s| - 1] as int - '0' as int)
  }

  lemma {:induction false} DecimalValue(n: nat)
    ensures DigitsValue(Decimal(n)) == n
  {
    var last := [('0' as int + n % 10) as char];
    if n < 10 {
      assert Decimal(n) == last;
      assert last[..0] == "";
    } else {
      DecimalValue(n / 10);
      var s := Decimal(n);
      assert s[..|s| - 1] == Decimal(n / 10);
    }
  }

  function Text(n: int): string
  {
    if n < 0 then "-" + Decimal(-n) else Decimal(n)
  }

  /** Drop every `_` that stands between two digits; any other `_` stays and makes `int(...)` fail. */
  function DropSeparators(s: string): string
  {
    if |s| >= 3 && IsDigit(s[0]) && s[1] == '_' && IsDigit(s[2]) then [s[0]] + DropSeparators(s[2..])
    else if s == "" then ""
    else [s[0]] + DropSeparators(s[1..])
  }

  /** `int(s)` on ASCII text; None is ValueError. */
  function ParseInt(s: string): Option<int>
  {
    var t := Strip(s);
    var negative := t != "" && t[0] == '-';
    var body := DropSeparators(if t != "" && (t[0] == '-' || t[0] == '+') then t[1..] else t);
    if body == "" || !AllDigits(body) then None
    else
      var n: int := DigitsValue(body);
      Some(if negative then -n else n)
  }

  lemma {:induction false} NoSeparators(s: string)
    requires AllDigits(s)
    ensures DropSeparators(s) == s
  {
    if s != "" {
      if |s| >= 3 {
        assert s[1] in s;
      }
      NoSeparators(s[1..]);
    }
  }

  lemma DigitsParse(s: string)
    requires s != "" && AllDigits(s)
    ensures NoSpaces(s) && ParseInt(s) == Some(DigitsValue(s))
  {
    assert s[0] in s;
    assert NoSpaces(s) by {
      forall c | c in s ensures !IsSpace(c) { assert IsDigit(c); }
    }
    StripClean(s);
    NoSeparators(s);
  }

  lemma ParseDecimal(n: nat)
    ensures ParseInt(Decimal(n)) == Some(n)
  {
    var s := Decimal(n);
    DigitsParse(s);
    DecimalValue(n);
  }
}
