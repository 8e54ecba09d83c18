/**
 * The decimal text that inserting an `int` into a `stringstream` produces:
 * a minus sign for negative values, then the digits without leading zeros.
 * Reading the text back gives back the number.
 */
module Numerals {

  predicate IsDigit(c: char)
  {
    '0' <= c <= '9'
  }

  function Digit(d: nat): (c: char)
    requires d < 10
    ensures IsDigit(c)
  {
    ('0' as int + d) as char
  }

  function DigitValue(c: char): (d: nat)
    requires IsDigit(c)
    ensures d < 10
  {
    c as int - '0' as int
  }

  /** The digits of n, most significant first. */
  function NatText(n: nat): (s: string)
    ensures |s| > 0
    ensures forall k :: 0 <= k < |s| ==> IsDigit(s[k])
  {
    if n < 10 then [Digit(n)] else NatText(n / 10) + [Digit(n % 10)]
  }

  /** What `<<` writes for an `int`. */
  function IntText(i: int): (s: string)
    ensures |s| > 0 && (s[0] == '-' <==> i < 0)
  {
    if i < 0 then "-" + NatText(-i) else NatText(i)
  }

  /** The value of a string of digits. */
  function ParseNat(s: string): nat
    requires forall k :: 0 <= k < |s| ==> IsDigit(s[k])
  {
    if s == [] then 0 else 10 * ParseNat(s[..|s| - 1]) + DigitValue(s[|s| - 1])
  }

  /** Recognises the text of an `int`: an optional minus sign and digits. */
  function ParseInt(s: string): (r: Option<int>)
  {
    if |s| > 0 && s[0] == '-' && |s| > 1 && (forall k :: 1 <= k < |s| ==> IsDigit(s[k])) then
      var v: int := ParseNat(s[1..]); Some(-v)
    else if |s| > 0 && forall k :: 0 <= k < |s| ==> IsDigit(s[k]) then Some(ParseNat(s))
    else None
  }

  datatype Option<T> = None | Some(value: T)

  lemma {:induction false} ParseNatText(n: nat)
    ensures ParseNat(NatText(n)) == n
  {
    if n >= 10 {
      var s := NatText(n);
      assert s[..|s| - 1] == NatText(n / 10);
      ParseNatText(n / 10);
    }
  }

  /** Reading back the text of an `int` gives the `int`. */
  lemma ParseIntText(i: int)
    ensures ParseInt(IntText(i)) == Some(i)
  {
    if i < 0 {
      ParseNegativeText(-i);
    } else {
      var s := NatText(i);
      assert IsDigit(s[0]);
      ParseNatText(i);
    }
  }

  /** A minus sign before the digits of n reads back as -n. */
  lemma ParseNegativeText(n: nat)
    ensures ParseInt("-" + NatText(n)) == Some(-(n as int))
  {
    var d := NatText(n);
    var s := "-" + d;
    assert s[1..] == d;
    assert forall k :: 1 <= k < |s| ==> s[k] == d[k - 1];
    assert forall k :: 1 <= k < |s| ==> IsDigit(s[k]);
    ParseNatText(n);
  }
}
