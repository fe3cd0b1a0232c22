/** Integers as decimal text: the rendering JavaScript gives an integer inside a
    template literal (and `JSON.stringify` gives a number), and its inverse. */
module Decimal {
  import opened Wrappers

  predicate IsDigit(c: char) {
    '0' <= c <= '9'
  }

  predicate AllDigits(s: string) {
    forall i :: 0 <= i < |s| ==> IsDigit(s[i])
  }

  function DigitChar(d: nat): (c: char)
    requires d < 10
    ensures IsDigit(c) && c as int - '0' as int == d
  {
    ('0' as int + d) as char
  }

  /** Decimal digits of `n`, most significant first, without leading zeros. */
  function NatDigits(n: nat): (s: string)
    ensures |s| >= 1 && AllDigits(s)
    ensures |s| > 1 ==> s[0] != '0'
  {
    if n < 10 then [DigitChar(n)] else NatDigits(n / 10) + [DigitChar(n % 10)]
  }

  /** The number a string of digits denotes. */
  function DigitsValue(s: string): nat
    requires AllDigits(s)
  {
    if s == [] then 0 else 10 * DigitsValue(s[..|s| - 1]) + (s[|s| - 1] as int - '0' as int)
  }

  /** `${n}` for an integer `n`. */
  function IntToString(n: int): (s: string)
    ensures s != [] && (IsDigit(s[0]) || s[0] == '-')
  {
    if n < 0 then "-" + NatDigits(-n) else NatDigits(n)
  }

  /** Length of the run of digits at the front of `s`. */
  function DigitRun(s: string): (k: nat)
    ensures k <= |s| && AllDigits(s[..k])
    ensures k < |s| ==> !IsDigit(s[k])
  {
    if s == [] || !IsDigit(s[0]) then 0 else 1 + DigitRun(s[1..])
  }

  /** Reads an optional minus sign and a non-empty run of digits from the front of
      `s`; returns the integer and what follows it. */
  function ParseIntPrefix(s: string): Option<(int, string)> {
    var negative := |s| > 0 && s[0] == '-';
    var body := if negative then s[1..] else s;
    var k := DigitRun(body);
    if k == 0 then None
    else
      var v: int := DigitsValue(body[..k]);
      Some((if negative then -v else v, body[k..]))
  }

  /** The integer a whole string denotes, if it is one. */
  function IntValue(s: string): Option<int> {
    match ParseIntPrefix(s)
    case Some((n, rest)) => if rest == [] then Some(n) else None
    case None => None
  }

  lemma {:induction false} NatDigitsValue(n: nat)
    ensures DigitsValue(NatDigits(n)) == n
  {
    if n >= 10 {
      var front := NatDigits(n / 10);
      var s := front + [DigitChar(n % 10)];
      assert s[..|s| - 1] == front;
      NatDigitsValue(n / 10);
    }
  }

  lemma {:induction false} DigitRunOf(d: string, rest: string)
    requires AllDigits(d)
    requires rest == [] || !IsDigit(rest[0])
    ensures DigitRun(d + rest) == |d|
  {
    if d != [] {
      assert (d + rest)[1..] == d[1..] + rest;
      DigitRunOf(d[1..], rest);
    }
  }

  /** The digits of `m` followed by a non-digit split back into `m` and the rest. */
  lemma DigitsPrefix(m: nat, rest: string)
    requires rest == [] || !IsDigit(rest[0])
    ensures var d, body := NatDigits(m), NatDigits(m) + rest;
      DigitRun(body) == |d| && body[..|d|] == d && body[|d|..] == rest && DigitsValue(d) == m
  {
    var d := NatDigits(m);
    DigitRunOf(d, rest);
    assert (d + rest)[..|d|] == d;
    assert (d + rest)[|d|..] == rest;
    NatDigitsValue(m);
  }

  lemma ParseNatRoundTrip(m: nat, rest: string)
    requires rest == [] || !IsDigit(rest[0])
    ensures ParseIntPrefix(NatDigits(m) + rest) == Some((m, rest))
  {
    DigitsPrefix(m, rest);
    var body := NatDigits(m) + rest;
    assert body[0] == NatDigits(m)[0];
  }

  lemma ParseNegativeRoundTrip(m: nat, rest: string)
    requires rest == [] || !IsDigit(rest[0])
    ensures ParseIntPrefix("-" + NatDigits(m) + rest) == Some((-(m as int), rest))
  {
    DigitsPrefix(m, rest);
    var body := NatDigits(m) + rest;
    var s := "-" + NatDigits(m) + rest;
    assert s == ['-'] + body;
    assert s[1..] == body;
  }

  /** Parsing the rendering of `n` gives back `n`, provided no digit follows. */
  lemma ParseIntRoundTrip(n: int, rest: string)
    requires rest == [] || !IsDigit(rest[0])
    ensures ParseIntPrefix(IntToString(n) + rest) == Some((n, rest))
  {
    if n < 0 {
      ParseNegativeRoundTrip(-n, rest);
    } else {
      ParseNatRoundTrip(n, rest);
    }
  }

  lemma IntValueRoundTrip(n: int)
    ensures IntValue(IntToString(n)) == Some(n)
  {
    ParseIntRoundTrip(n, []);
    assert IntToString(n) + [] == IntToString(n);
  }

  /** Distinct integers render differently. */
  lemma IntToStringInjective(a: int, b: int)
    ensures IntToString(a) == IntToString(b) <==> a == b
  {
    IntValueRoundTrip(a);
    IntValueRoundTrip(b);
  }

  /** `${n}` holds only digits and a leading minus sign. */
  lemma IntToStringChars(n: int)
    ensures forall c :: c in IntToString(n) ==> IsDigit(c) || c == '-'
  {
    if n < 0 {
      assert IntToString(n) == "-" + NatDigits(-n);
    }
  }
}
