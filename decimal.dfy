/** Base-10 text of Go's int64 and uint64, as strconv.FormatInt(v, 10) and
    strconv.FormatUint(v, 10) write it, with the parsers that read it back. */
module Decimal {
  import opened Wrappers
  import opened Ints

  predicate IsDigit(c: char)
  {
    '0' <= c <= '9'
  }

  predicate AllDigits(s: string)
  {
    forall i :: 0 <= i < |s| ==> IsDigit(s[i])
  }

  /** Digits with no leading zero, except "0" itself. */
  predicate Canonical(s: string)
  {
    |s| >= 1 && AllDigits(s) && (s[0] == '0' ==> |s| == 1)
  }

  function DigitChar(d: nat): (c: char)
    requires d < 10
    ensures IsDigit(c)
  {
    ('0' as int + d) as char
  }

  function DigitValue(c: char): (d: nat)
    requires IsDigit(c)
    ensures d < 10 && DigitChar(d) == c
  {
    c as int - '0' as int
  }

  /** The base-10 digits of n, most significant first. */
  function NatToDecimal(n: nat): (r: string)
    ensures Canonical(r)
    ensures r[0] == '0' <==> n == 0
  {
    if n < 10 then [DigitChar(n)] else NatToDecimal(n / 10) + [DigitChar(n % 10)]
  }

  /** The number a string of digits denotes. */
  function DecimalValue(s: string): nat
    requires AllDigits(s)
  {
    if |s| == 0 then 0
    else 10 * DecimalValue(s[..|s| - 1]) + DigitValue(s[|s| - 1])
  }

  /** Reading the digits back yields the number. */
  lemma {:induction false} DecimalValueOfDigits(n: nat)
    ensures DecimalValue(NatToDecimal(n)) == n
  {
    var r := NatToDecimal(n);
    if n < 10 {
      assert r[..0] == [];
    } else {
      assert r[..|r| - 1] == NatToDecimal(n / 10);
      DecimalValueOfDigits(n / 10);
    }
  }

  lemma {:induction false} DecimalValuePositive(s: string)
    requires Canonical(s) && s[0] != '0'
    ensures DecimalValue(s) >= 1
  {
    if |s| > 1 {
      var p := s[..|s| - 1];
      assert p[0] == s[0];
      DecimalValuePositive(p);
    }
  }

  /** Every canonical digit string is the text of exactly one number: the
      formatter's image is the set of canonical strings. */
  lemma {:induction false} DigitsOfDecimalValue(s: string)
    requires Canonical(s)
    ensures NatToDecimal(DecimalValue(s)) == s
  {
    var last := s[|s| - 1];
    if |s| == 1 {
      assert s[..0] == [];
      assert s == [last];
    } else {
      var p := s[..|s| - 1];
      assert p[0] == s[0];
      DecimalValuePositive(p);
      DigitsOfDecimalValue(p);
      var v := DecimalValue(s);
      assert v / 10 == DecimalValue(p) && v % 10 == DigitValue(last);
      assert s == p + [last];
    }
  }

  /** Digits only: strconv.ParseUint(s, 10, 64) without its range check. */
  function ParseUint(s: string): Option<nat>
  {
    if |s| >= 1 && AllDigits(s) then Some(DecimalValue(s)) else None
  }

  /** An optional '-' and digits. Unlike strconv.ParseInt(s, 10, 64) it accepts
      no leading '+' and has no range check. */
  function ParseInt(s: string): Option<int>
  {
    if |s| >= 2 && s[0] == '-' && AllDigits(s[1..]) then Some(-(DecimalValue(s[1..]) as int))
    else if |s| >= 1 && AllDigits(s) then Some(DecimalValue(s))
    else None
  }

  /** strconv.FormatUint(n, 10): digits only, and they parse back to n. */
  function FormatUint(n: Uint64): (r: string)
    ensures Canonical(r)
    ensures ParseUint(r) == Some(n)
  {
    DecimalValueOfDigits(n);
    NatToDecimal(n)
  }

  /** strconv.FormatInt(i, 10): a '-' exactly when i is negative, then
      canonical digits; the text parses back to i. */
  function FormatInt(i: Int64): (r: string)
    ensures |r| >= 1 && (r[0] == '-' <==> i < 0)
    ensures Canonical(if i < 0 then r[1..] else r)
    ensures ParseInt(r) == Some(i)
  {
    if i < 0 then
      var magnitude: nat := -(i as int);
      var digits := NatToDecimal(magnitude);
      DecimalValueOfDigits(magnitude);
      assert ("-" + digits)[1..] == digits;
      "-" + digits
    else
      DecimalValueOfDigits(i);
      NatToDecimal(i)
  }

  /** Distinct numbers never share a text. */
  lemma FormatIntInjective(i: Int64, j: Int64)
    requires FormatInt(i) == FormatInt(j)
    ensures i == j
  {
  }
}
