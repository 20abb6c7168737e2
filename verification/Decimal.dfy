/**
 The decimal text of ipn endpoint numbers: `sprintf ("%u.%u")` and
 `sscanf ("%d.%d")` (bp/model/bp-header.cc, bp/model/bp-header-7.cc).
 */
module Decimal {
  import opened Bytes

  const DOT: byte := 46
  const INT_LIMIT: nat := 0x8000_0000

  predicate IsDigit(b: byte)
  {
    48 <= b < 58
  }

  /** The decimal numeral of `n`, without leading zeros. */
  function Digits(n: nat): (s: seq<byte>)
    ensures |s| > 0 && forall i :: 0 <= i < |s| ==> IsDigit(s[i])
  {
    if n < 10 then [48 + n] else Digits(n / 10) + [48 + n % 10]
  }

  /** The longest run of digits at the front, read as a number after `acc`. */
  function Scan(acc: nat, s: seq<byte>): (nat, seq<byte>)
    decreases |s|
  {
    if s == [] || !IsDigit(s[0]) then (acc, s) else Scan(acc * 10 + (s[0] - 48), s[1..])
  }

  function PrintPair(node: nat, service: nat): seq<byte>
  {
    Digits(node) + [DOT] + Digits(service)
  }

  /** What `sscanf ("%d.%d")` stores for text of the form digits, period,
      digits with both numbers in the range of an `int`. `None` elsewhere: the
      program then reads variables it has not set. */
  function ScanPair(s: seq<byte>): Option<(nat, nat)>
  {
    if s == [] || !IsDigit(s[0]) then None
    else
      var (node, rest) := Scan(0, s);
      if rest == [] || rest[0] != DOT || |rest| < 2 || !IsDigit(rest[1]) then None
      else
        var (service, _) := Scan(0, rest[1..]);
        if node < INT_LIMIT && service < INT_LIMIT then Some((node, service)) else None
  }

  /** Digits after a number, with a non-digit (or nothing) behind them. */
  lemma {:induction false} ScanDigits(n: nat, rest: seq<byte>)
    requires rest == [] || !IsDigit(rest[0])
    ensures Scan(0, Digits(n) + rest) == (n, rest)
  {
    ScanThrough(n, rest);
  }

  lemma {:induction false} ScanThrough(n: nat, rest: seq<byte>)
    ensures Scan(0, Digits(n) + rest) == Scan(n, rest)
  {
    if n < 10 {
      assert ([48 + n] + rest)[1..] == rest;
    } else {
      var last: byte := 48 + n % 10;
      assert Digits(n) + rest == Digits(n / 10) + ([last] + rest);
      ScanThrough(n / 10, [last] + rest);
      assert ([last] + rest)[1..] == rest;
    }
  }

  /** Scanning what was printed gives both numbers back, below 2^31. */
  lemma ScanPrinted(node: nat, service: nat)
    requires node < INT_LIMIT && service < INT_LIMIT
    ensures ScanPair(PrintPair(node, service)) == Some((node, service))
  {
    var tail := [DOT] + Digits(service);
    assert PrintPair(node, service) == Digits(node) + tail;
    ScanDigits(node, tail);
    assert tail[1..] == Digits(service) == Digits(service) + [];
    ScanDigits(service, []);
  }

  /** A numeral without leading zeros. */
  predicate Numeral(s: seq<byte>)
  {
    |s| > 0 && (forall i :: 0 <= i < |s| ==> IsDigit(s[i])) && (s[0] != 48 || |s| == 1)
  }

  function NumeralValue(s: seq<byte>): nat
    requires forall i :: 0 <= i < |s| ==> IsDigit(s[i])
  {
    if s == [] then 0
    else
      assert IsDigit(s[|s| - 1]);
      NumeralValue(s[..|s| - 1]) * 10 + (s[|s| - 1] - 48)
  }

  lemma {:induction false} DigitsOfNumeral(s: seq<byte>)
    requires Numeral(s)
    ensures Digits(NumeralValue(s)) == s
    ensures s[0] != 48 ==> NumeralValue(s) > 0
  {
    var last := s[|s| - 1];
    if |s| == 1 {
      assert NumeralValue(s[..0]) == 0;
      assert s == [last];
    } else {
      var init := s[..|s| - 1];
      DigitsOfNumeral(init);
      var v := NumeralValue(s);
      assert v / 10 == NumeralValue(init) && v % 10 == last - 48;
      assert s == init + [last];
    }
  }

  /** Text "node.service" in canonical decimal: no leading zeros, no sign, no
      blanks, both numbers in the range of an `int`. */
  ghost predicate Canonical(s: seq<byte>)
  {
    exists a, b :: CanonicalParts(s, a, b)
  }

  predicate CanonicalParts(s: seq<byte>, a: seq<byte>, b: seq<byte>)
  {
    Numeral(a) && Numeral(b) && s == a + [DOT] + b &&
    NumeralValue(a) < INT_LIMIT && NumeralValue(b) < INT_LIMIT
  }

  /** Printing what was scanned gives canonical text back. */
  lemma PrintScanned(s: seq<byte>)
    requires Canonical(s)
    ensures ScanPair(s).Some?
    ensures PrintPair(ScanPair(s).value.0, ScanPair(s).value.1) == s
    ensures ScanPair(s).value.0 < INT_LIMIT && ScanPair(s).value.1 < INT_LIMIT
  {
    var a, b :| CanonicalParts(s, a, b);
    DigitsOfNumeral(a);
    DigitsOfNumeral(b);
    ScanPrinted(NumeralValue(a), NumeralValue(b));
  }

  lemma {:induction false} DigitsAreNumeral(n: nat)
    ensures Numeral(Digits(n)) && NumeralValue(Digits(n)) == n && (n > 0 ==> Digits(n)[0] != 48)
  {
    if n < 10 {
      assert NumeralValue([48 + n][..0]) == 0;
    } else {
      var init, last: byte := Digits(n / 10), 48 + n % 10;
      DigitsAreNumeral(n / 10);
      assert Digits(n) == init + [last] && Digits(n)[..|init|] == init;
    }
  }

  /** What is printed is canonical. */
  lemma PrintedIsCanonical(node: nat, service: nat)
    requires node < INT_LIMIT && service < INT_LIMIT
    ensures Canonical(PrintPair(node, service))
  {
    DigitsAreNumeral(node);
    DigitsAreNumeral(service);
    assert CanonicalParts(PrintPair(node, service), Digits(node), Digits(service));
  }
}
