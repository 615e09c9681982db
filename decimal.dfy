/** Decimal rendering of non-negative integers, as a JavaScript template
    literal renders an integral number (no sign, no leading zeros), with the
    reading back that makes it a round trip. */
module Decimal {

  predicate IsDigit(c: char) {
    '0' <= c <= '9'
  }

  predicate AllDigits(s: string) {
    forall i :: 0 <= i < |s| ==> IsDigit(s[i])
  }

  function DigitChar(d: nat): (c: char)
    requires d < 10
    ensures IsDigit(c)
  {
    (48 + d) as char
  }

  function DigitValue(c: char): (d: nat)
    requires IsDigit(c)
    ensures d < 10
  {
    (c as int) - 48
  }

  /** `${n}` for a non-negative integer n. */
  function Show(n: nat): (s: string)
    ensures |s| > 0 && AllDigits(s)
    decreases n
  {
    if n < 10 then [DigitChar(n)] else Show(n / 10) + [DigitChar(n % 10)]
  }

  /** The number a string of decimal digits denotes. */
  function Value(s: string): nat
    requires AllDigits(s)
    decreases |s|
  {
    if s == [] then 0 else Value(s[..|s| - 1]) * 10 + DigitValue(s[|s| - 1])
  }

  lemma {:induction false} ValueOfShow(n: nat)
    ensures Value(Show(n)) == n
    decreases n
  {
    if n >= 10 {
      var s := Show(n);
      assert s[..|s| - 1] == Show(n / 10);
      ValueOfShow(n / 10);
    }
  }

  /** Length of the longest all-digit prefix of s. */
  function DigitSpan(s: string): (k: nat)
    ensures k <= |s| && AllDigits(s[..k])
    ensures k < |s| ==> !IsDigit(s[k])
    decreases |s|
  {
    if s == [] || !IsDigit(s[0]) then 0 else 1 + DigitSpan(s[1..])
  }

  lemma {:induction false} DigitSpanOfDigits(d: string, rest: string)
    requires AllDigits(d)
    requires rest == [] || !IsDigit(rest[0])
    ensures DigitSpan(d + rest) == |d|
    decreases |d|
  {
    if d != [] {
      assert (d + rest)[1..] == d[1..] + rest;
      DigitSpanOfDigits(d[1..], rest);
    }
  }

  /** Reading back the leading number of `Show(n) + rest`, when rest does not
      start with a digit, gives n and leaves rest. */
  lemma ShowThenRead(n: nat, rest: string)
    requires rest == [] || !IsDigit(rest[0])
    ensures var t := Show(n) + rest;
            var k := DigitSpan(t);
            k == |Show(n)| && Value(t[..k]) == n && t[k..] == rest
  {
    var t := Show(n) + rest;
    DigitSpanOfDigits(Show(n), rest);
    assert t[..|Show(n)|] == Show(n);
    assert t[|Show(n)|..] == rest;
    ValueOfShow(n);
  }
}
