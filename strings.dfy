/**
 * The two pieces of Python string handling the scripts use: `sep.join(parts)`
 * and `str(i)` for a non-negative integer, each with the facts the rest of the
 * model relies on.
 */
module Strings {

  /** `sep.join(parts)`: the parts in order with `sep` between neighbours. */
  function Join(parts: seq<string>, sep: string): (r: string)
    ensures |parts| == 0 ==> r == ""
    ensures |parts| > 0 ==> |parts[0]| <= |r| && r[..|parts[0]|] == parts[0]
  {
    if |parts| == 0 then ""
    else if |parts| == 1 then parts[0]
    else parts[0] + sep + Join(parts[1..], sep)
  }

  /** A join of at least one part ends with the last part. */
  lemma {:induction false} JoinEndsWithLast(parts: seq<string>, sep: string)
    requires |parts| > 0
    ensures var r, last := Join(parts, sep), parts[|parts| - 1];
      |last| <= |r| && r[|r| - |last|..] == last
  {
    if |parts| > 1 {
      JoinEndsWithLast(parts[1..], sep);
    }
  }

  /** Joining one more part at the end adds exactly the separator and that part. */
  lemma {:induction false} JoinSnoc(parts: seq<string>, x: string, sep: string)
    requires |parts| > 0
    ensures Join(parts + [x], sep) == Join(parts, sep) + sep + x
  {
    if |parts| == 1 {
      assert (parts + [x])[1..] == [x];
    } else {
      assert (parts + [x])[1..] == parts[1..] + [x];
      JoinSnoc(parts[1..], x, sep);
    }
  }

  predicate IsDigit(c: char)
  {
    '0' <= c <= '9'
  }

  predicate AllDigits(s: string)
  {
    forall i :: 0 <= i < |s| ==> IsDigit(s[i])
  }

  /** The form `str(i)` produces for i >= 0: digits only, no leading zero except "0" itself. */
  predicate IsCanonical(s: string)
  {
    |s| > 0 && AllDigits(s) && (s[0] == '0' ==> |s| == 1)
  }

  function DigitChar(d: nat): (c: char)
    requires d < 10
    ensures IsDigit(c)
  {
    (48 + d) as char
  }

  function DigitValue(c: char): (d: nat)
    requires IsDigit(c)
    ensures d < 10
  {
    c as int - 48
  }

  /** `str(n)` for a non-negative integer n: its decimal digits, most significant first. */
  function Decimal(n: nat): (s: string)
    ensures IsCanonical(s)
    ensures s[0] == '0' <==> n == 0
  {
    if n < 10 then [DigitChar(n)] else Decimal(n / 10) + [DigitChar(n % 10)]
  }

  /** The number a string of decimal digits denotes (the reading direction of `Decimal`). */
  function ValueOf(s: string): nat
    requires AllDigits(s)
  {
    if s == [] then 0 else ValueOf(s[..|s| - 1]) * 10 + DigitValue(s[|s| - 1])
  }

  /** Reading back what `Decimal` wrote gives the number. */
  lemma {:induction false} ValueOfDecimal(n: nat)
    ensures ValueOf(Decimal(n)) == n
  {
    if n >= 10 {
      var s := Decimal(n);
      assert s[..|s| - 1] == Decimal(n / 10);
      ValueOfDecimal(n / 10);
    }
  }

  lemma {:induction false} ValueOfLeadingNonZero(s: string)
    requires |s| > 0 && AllDigits(s) && s[0] != '0'
    ensures ValueOf(s) >= 1
  {
    if |s| > 1 {
      ValueOfLeadingNonZero(s[..|s| - 1]);
    }
  }

  /** Every canonical digit string is what `Decimal` writes for the number it denotes. */
  lemma {:induction false} DecimalOfValue(s: string)
    requires IsCanonical(s)
    ensures Decimal(ValueOf(s)) == s
  {
    if |s| > 1 {
      var p := s[..|s| - 1];
      ValueOfLeadingNonZero(p);
      DecimalOfValue(p);
      assert s == p + [s[|s| - 1]];
    }
  }

  /** Distinct numbers are written as distinct strings. */
  lemma DecimalInjective(a: nat, b: nat)
    ensures Decimal(a) == Decimal(b) <==> a == b
  {
    ValueOfDecimal(a);
    ValueOfDecimal(b);
  }

  /** A common prefix can be removed from both sides of an equation. */
  lemma PrefixCancel(p: string, x: string, y: string)
    requires p + x == p + y
    ensures x == y
  {
    assert x == (p + x)[|p|..];
    assert y == (p + y)[|p|..];
  }
}
