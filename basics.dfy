/**
 * The statable pieces of basics.cpp: the two maximum functions, the pre- and
 * post-increment lines, integer division, and the character loops over the
 * `username` string. Character classes are those of the "C" locale on ASCII.
 */
module Basics {
  import opened CppInt
  import Decimal

  /** `x > y ? x : y`. */
  function GetBiggerOfTwo(x: int, y: int): (r: int)
    ensures r >= x && r >= y
    ensures r == x || r == y
  {
    if x > y then x else y
  }

  /** The `getMax` template at `int`: `a` when it is larger, otherwise `b`. */
  function GetMax(a: int, b: int): (r: int)
    ensures a > b ==> r == a
    ensures a <= b ==> r == b
  {
    if a > b then a else b
  }

  /** Both return the maximum of their two arguments. */
  lemma GetMaxIsBiggerOfTwo(a: int, b: int)
    ensures GetMax(a, b) == GetBiggerOfTwo(a, b)
    ensures GetMax(a, b) == GetMax(b, a)
  {
  }

  /** `y = cnt++`: `y` gets the old value, `cnt` grows by one. */
  method PostIncrement(cnt: int) returns (y: int, cnt': int)
    ensures y == cnt && cnt' == cnt + 1
  {
    y := cnt;
    cnt' := cnt + 1;
  }

  /** `y = ++cnt`: `cnt` grows by one and `y` gets the new value. */
  method PreIncrement(cnt: int) returns (y: int, cnt': int)
    ensures cnt' == cnt + 1 && y == cnt'
  {
    cnt' := cnt + 1;
    y := cnt';
  }

  /** The increment lines of `variableBasics`, from `cnt = 39`. */
  method IncrementLines() returns (y1: int, cnt1: int, y2: int, cnt2: int)
    ensures y1 == 39 && cnt1 == 40
    ensures y2 == 41 && cnt2 == 41
  {
    var cnt := 39;
    y1, cnt := PostIncrement(cnt);
    cnt1 := cnt;
    y2, cnt := PreIncrement(cnt);
    cnt2 := cnt;
  }

  /** `3 / 2` is integer division, 1; with a negative operand it truncates. */
  lemma IntegerDivision()
    ensures TruncDiv(3, 2) == 1
    ensures TruncDiv(-3, 2) == -1
  {
  }

  predicate IsUpper(c: char) { 'A' <= c <= 'Z' }
  predicate IsLower(c: char) { 'a' <= c <= 'z' }

  /** `isalnum`. */
  predicate IsAlnum(c: char) { Decimal.IsDigit(c) || IsUpper(c) || IsLower(c) }

  /** `ispunct`: the printable ASCII characters other than space and alphanumerics. */
  predicate IsPunct(c: char) { '!' <= c <= '~' && !IsAlnum(c) }

  /** `toupper`. */
  function ToUpper(c: char): (u: char)
    ensures IsLower(c) ==> IsUpper(u) && u as int == c as int - 32
    ensures !IsLower(c) ==> u == c
  {
    if IsLower(c) then (c as int - 32) as char else c
  }

  lemma ToUpperIdempotent(c: char)
    ensures ToUpper(ToUpper(c)) == ToUpper(c)
    ensures IsAlnum(ToUpper(c)) == IsAlnum(c) && IsPunct(ToUpper(c)) == IsPunct(c)
  {
  }

  /** The number of punctuation characters of `s`. */
  function PunctCount(s: string): nat {
    if s == [] then 0
    else PunctCount(s[..|s| - 1]) + (if IsPunct(s[|s| - 1]) then 1 else 0)
  }

  lemma {:induction false} PunctCountBounded(s: string)
    ensures PunctCount(s) <= |s|
    ensures PunctCount(s) == |s| <==> forall i :: 0 <= i < |s| ==> IsPunct(s[i])
  {
    if s != [] {
      var init := s[..|s| - 1];
      PunctCountBounded(init);
      assert forall i :: 0 <= i < |init| ==> init[i] == s[i];
    }
  }

  /** A string of alphanumerics has no punctuation. */
  lemma {:induction false} AlnumHasNoPunct(s: string)
    requires forall i :: 0 <= i < |s| ==> IsAlnum(s[i])
    ensures PunctCount(s) == 0
  {
    if s != [] {
      var init := s[..|s| - 1];
      assert forall i :: 0 <= i < |init| ==> init[i] == s[i];
      AlnumHasNoPunct(init);
    }
  }

  /**
   * The first `username` loop: counts the `ispunct` characters and clears
   * the flag at the first character that is not `isalnum`.
   */
  method ScanUsername(username: string) returns (punctCnt: nat, allAlphaNumericChars: bool)
    ensures punctCnt == PunctCount(username)
    ensures allAlphaNumericChars <==> forall i :: 0 <= i < |username| ==> IsAlnum(username[i])
  {
    punctCnt := 0;
    allAlphaNumericChars := true;
    for i := 0 to |username|
      invariant punctCnt == PunctCount(username[..i])
      invariant allAlphaNumericChars <==> forall k :: 0 <= k < i ==> IsAlnum(username[k])
    {
      var c := username[i];
      assert username[..i + 1][..i] == username[..i];
      if IsPunct(c) {
        punctCnt := punctCnt + 1;
      }
      if !IsAlnum(c) {
        allAlphaNumericChars := false;
      }
    }
    assert username[..|username|] == username;
  }

  /** The second loop: `c = toupper(c)` through a reference to each character. */
  method Uppercase(s: array<char>)
    modifies s
    ensures forall i :: 0 <= i < s.Length ==> s[i] == ToUpper(old(s[i]))
  {
    for i := 0 to s.Length
      invariant forall k :: 0 <= k < i ==> s[k] == ToUpper(old(s[k]))
      invariant forall k :: i <= k < s.Length ==> s[k] == old(s[k])
    {
      s[i] := ToUpper(s[i]);
    }
  }

  /** `stringBasics` on "$abc123_": two punctuation characters, not all alphanumeric. */
  method StringBasics() returns (punctCnt: nat, valid: bool, upper: string)
    ensures punctCnt == 2 && !valid
    ensures upper == "$ABC123_"
  {
    var username := "$abc123_";
    punctCnt, valid := ScanUsername(username);
    assert !IsAlnum(username[0]);
    assert username[..4] == "$abc" && username[..7] == "$abc123";
    assert PunctCount("$") == 1;
    assert PunctCount("$abc123") == 1 by {
      assert "$abc123"[..6] == "$abc12";
      assert "$abc12"[..5] == "$abc1";
      assert "$abc1"[..4] == "$abc";
      assert "$abc"[..3] == "$ab";
      assert "$ab"[..2] == "$a";
      assert "$a"[..1] == "$";
    }
    assert username[..7] == "$abc123";
    var chars := new char[|username|](i requires 0 <= i < |username| => username[i]);
    Uppercase(chars);
    upper := chars[..];
  }
}
