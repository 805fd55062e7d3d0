/**
 * Decimal rendering of integers, as `std::to_string(int)` and `operator<<(int)`
 * on a stream produce it (an optional '-' followed by the digits, no leading
 * zeros), together with a reader that takes such a number off the front of a
 * text. The reader is the inverse the serialisers of the model are proved
 * against.
 */
module Decimal {
  import opened Wrappers

  predicate IsDigit(c: char) { '0' <= c <= '9' }

  /** The characters that can occur in a rendered integer. */
  predicate IsNumeric(c: char) { IsDigit(c) || c == '-' }

  predicate AllDigits(s: string) { forall i :: 0 <= i < |s| ==> IsDigit(s[i]) }

  predicate AllNumeric(s: string) { forall i :: 0 <= i < |s| ==> IsNumeric(s[i]) }

  function DigitChar(d: nat): (c: char)
    requires d < 10
    ensures IsDigit(c) && c as int - '0' as int == d
  {
    ('0' as int + d) as char
  }

  function NatToString(n: nat): (s: string)
    ensures |s| >= 1 && AllDigits(s)
    ensures n >= 10 ==> s[0] != '0'
    decreases n
  {
    if n < 10 then [DigitChar(n)] else NatToString(n / 10) + [DigitChar(n % 10)]
  }

  function IntToString(n: int): (s: string)
    ensures |s| >= 1 && AllNumeric(s)
  {
    if n < 0 then "-" + NatToString(-n) else NatToString(n)
  }

  /** The value of a string of decimal digits (most significant first). */
  function DigitsValue(s: string): nat
    requires AllDigits(s)
  {
    if s == [] then 0
    else DigitsValue(s[..|s| - 1]) * 10 + (s[|s| - 1] as int - '0' as int)
  }

  /** Reads an optionally negative decimal integer that makes up all of `s`. */
  function ParseInt(s: string): Option<int> {
    if |s| >= 1 && AllDigits(s) then Some(DigitsValue(s))
    else if |s| >= 2 && s[0] == '-' && AllDigits(s[1..]) then Some(-(DigitsValue(s[1..]) as int))
    else None
  }

  /** The length of the longest prefix of `s` made of numeric characters. */
  function NumericPrefixLength(s: string): (n: nat)
    ensures n <= |s|
    ensures AllNumeric(s[..n])
    ensures n < |s| ==> !IsNumeric(s[n])
  {
    if |s| > 0 && IsNumeric(s[0]) then
      var k := NumericPrefixLength(s[1..]);
      assert s[..k + 1] == [s[0]] + s[1..][..k];
      k + 1
    else 0
  }

  /** Takes the integer at the front of `s`; gives it and the text after it. */
  function ReadInt(s: string): Option<(int, string)> {
    var n := NumericPrefixLength(s);
    match ParseInt(s[..n])
    case None => None
    case Some(v) => Some((v, s[n..]))
  }

  lemma {:induction false} DigitsRoundTrip(n: nat)
    ensures DigitsValue(NatToString(n)) == n
    decreases n
  {
    if n >= 10 {
      var s := NatToString(n);
      assert s[..|s| - 1] == NatToString(n / 10);
      DigitsRoundTrip(n / 10);
    }
  }

  /** Parsing inverts rendering. */
  lemma ParseIntRoundTrip(n: int)
    ensures ParseInt(IntToString(n)) == Some(n)
  {
    if n < 0 {
      var s := IntToString(n);
      assert s[1..] == NatToString(-n);
      assert !IsDigit(s[0]);
      DigitsRoundTrip(-n);
    } else {
      DigitsRoundTrip(n);
    }
  }

  lemma {:induction false} NumericPrefixOfConcat(a: string, b: string)
    requires AllNumeric(a)
    requires b == [] || !IsNumeric(b[0])
    ensures NumericPrefixLength(a + b) == |a|
    decreases |a|
  {
    if a != [] {
      assert (a + b)[1..] == a[1..] + b;
      NumericPrefixOfConcat(a[1..], b);
    } else {
      assert a + b == b;
    }
  }

  /**
   * A rendered integer reads back from the front of any text that does not
   * continue it with a further numeric character.
   */
  lemma ReadIntRoundTrip(n: int, rest: string)
    requires rest == [] || !IsNumeric(rest[0])
    ensures ReadInt(IntToString(n) + rest) == Some((n, rest))
  {
    var s := IntToString(n);
    NumericPrefixOfConcat(s, rest);
    assert (s + rest)[..|s|] == s;
    assert (s + rest)[|s|..] == rest;
    ParseIntRoundTrip(n);
  }
}
