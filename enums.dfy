/**
 * The enumerations of enums.h with their integer values, the wrap-around
 * prefix `++` on `Month` and the `printEnum` classifier of enums.cpp.
 */
module Enums {
  import opened Wrappers
  import opened Decimal

  datatype Month = Jan | Feb | Mar | Apr | May | Jun | Jul | Aug | Sep | Oct | Nov | Dec

  /** `Jan = 1` and each later enumerator one more than the one before. */
  function MonthValue(m: Month): (v: int)
    ensures 1 <= v <= 12
  {
    match m
    case Jan => 1 case Feb => 2 case Mar => 3 case Apr => 4
    case May => 5 case Jun => 6 case Jul => 7 case Aug => 8
    case Sep => 9 case Oct => 10 case Nov => 11 case Dec => 12
  }

  /** `Month(v)`, the enumerator with value `v`. */
  function MonthOf(v: int): (m: Month)
    requires 1 <= v <= 12
    ensures MonthValue(m) == v
  {
    if v == 1 then Jan else if v == 2 then Feb else if v == 3 then Mar
    else if v == 4 then Apr else if v == 5 then May else if v == 6 then Jun
    else if v == 7 then Jul else if v == 8 then Aug else if v == 9 then Sep
    else if v == 10 then Oct else if v == 11 then Nov else Dec
  }

  /** Distinct months have distinct values. */
  lemma MonthValueInjective(m: Month)
    ensures MonthOf(MonthValue(m)) == m
  {
  }

  /**
   * `operator++(Month &m)`: `Dec` wraps to `Jan`, any other month goes to the
   * month one value up. The C++ operator assigns this to its argument and
   * returns it; a caller writes `m := Increment(m)`.
   */
  function Increment(m: Month): (r: Month)
    ensures m == Dec ==> r == Jan
    ensures m != Dec ==> MonthValue(r) == MonthValue(m) + 1
  {
    if m == Dec then Jan else MonthOf(MonthValue(m) + 1)
  }

  /** The increment is addition modulo 12 on the values 1..12. */
  lemma IncrementIsModular(m: Month)
    ensures MonthValue(Increment(m)) == MonthValue(m) % 12 + 1
  {
  }

  /** `n` applications of `++`. */
  function IncrementTimes(m: Month, n: nat): Month {
    if n == 0 then m else Increment(IncrementTimes(m, n - 1))
  }

  lemma {:induction false} IncrementTimesValue(m: Month, n: nat)
    ensures MonthValue(IncrementTimes(m, n)) == (MonthValue(m) - 1 + n) % 12 + 1
  {
    if n > 0 {
      IncrementTimesValue(m, n - 1);
      IncrementIsModular(IncrementTimes(m, n - 1));
    }
  }

  lemma {:induction false} ShiftByMultipleOfTwelve(a: int, n: nat)
    requires 0 <= a < 12 && n % 12 == 0
    ensures (a + n) % 12 == a
    decreases n
  {
    if n >= 12 {
      ShiftByMultipleOfTwelve(a, n - 12);
      assert (a + n) % 12 == (a + (n - 12)) % 12;
    }
  }

  /** Any multiple of twelve increments brings a month back to itself. */
  lemma {:induction false} TwelveIncrementsCycle(m: Month, n: nat)
    requires n % 12 == 0
    ensures IncrementTimes(m, n) == m
  {
    var r := IncrementTimes(m, n);
    IncrementTimesValue(m, n);
    ShiftByMultipleOfTwelve(MonthValue(m) - 1, n);
    assert MonthValue(r) == MonthValue(m);
    MonthValueInjective(m);
    MonthValueInjective(r);
  }

  datatype Day = Monday | Tuesday | Wednesday | Thursday | Friday | Saturday | Sunday

  /** Unscoped, uninitialised: counts from 0. */
  function DayValue(d: Day): (v: int)
    ensures 0 <= v <= 6
  {
    match d
    case Monday => 0 case Tuesday => 1 case Wednesday => 2 case Thursday => 3
    case Friday => 4 case Saturday => 5 case Sunday => 6
  }

  lemma DayValuesConsecutive()
    ensures DayValue(Monday) == 0 && DayValue(Sunday) == 6
    ensures forall d, e :: DayValue(d) == DayValue(e) ==> d == e
  {
  }

  datatype Size = XS | S | M | L | XL | XXL

  function SizeValue(z: Size): (v: int)
    ensures 0 <= v <= 5
  {
    match z
    case XS => 0 case S => 1 case M => 2 case L => 3 case XL => 4 case XXL => 5
  }

  lemma SizeValuesConsecutive()
    ensures SizeValue(XS) == 0 && SizeValue(XXL) == 5
    ensures forall y, z :: SizeValue(y) == SizeValue(z) ==> y == z
  {
  }

  /** `size == day` with `XS` and `Monday` compares the underlying 0s. */
  lemma UnscopedEnumsCompareByValue()
    ensures SizeValue(XS) == DayValue(Monday)
  {
  }

  datatype Rank = High | Low

  /** `enum class Rank : char`. */
  function RankValue(r: Rank): (c: char)
    ensures c == 'H' || c == 'L'
    ensures (c == 'H') == (r == High)
  {
    match r
    case High => 'H'
    case Low => 'L'
  }

  const Weekday: string := "Well, another weekday.\n"

  /** The text `printEnum(d)` writes: the number, ": ", then the label. */
  function PrintEnum(d: Day): (out: string)
    ensures (d == Saturday) == (out == "5: Saturday\n")
    ensures (d == Sunday) == (out == "6: Sunday\n")
    ensures d != Saturday && d != Sunday <==> out == IntToString(DayValue(d)) + ": " + Weekday
  {
    IntToString(DayValue(d)) + ": " +
      match d
      case Saturday => "Saturday\n"
      case Sunday => "Sunday\n"
      case _ => Weekday
  }

  /** The number printed first reads back as the day's value. */
  lemma PrintEnumStartsWithValue(d: Day)
    ensures ReadInt(PrintEnum(d)) == Some((DayValue(d), PrintEnum(d)[|IntToString(DayValue(d))|..]))
  {
    var n := IntToString(DayValue(d));
    var out := PrintEnum(d);
    assert out == n + out[|n|..];
    ReadIntRoundTrip(DayValue(d), out[|n|..]);
  }

  /** `printEnum(Friday)` as `enumBasics` writes it. */
  lemma FridayLine()
    ensures PrintEnum(Friday) == "4: Well, another weekday.\n"
  {
    assert IntToString(4) == "4";
  }

  /** The output of `enumBasics`, one element per line written. */
  method EnumBasics() returns (lines: seq<string>)
    ensures lines == ["4: Well, another weekday.\n", "Month m: 1\n", "++m: 2\n",
                      "Different enumeration types are equal?\n"]
  {
    assert IntToString(4) == "4" && IntToString(1) == "1" && IntToString(2) == "2";
    var thatDay := Friday;
    lines := [PrintEnum(thatDay)];
    FridayLine();
    var m := Jan;
    assert "Month m: " + IntToString(MonthValue(m)) + "\n" == "Month m: 1\n";
    lines := lines + ["Month m: " + IntToString(MonthValue(m)) + "\n"];
    m := Increment(m);
    assert MonthValue(m) == 2;
    assert "++m: " + IntToString(MonthValue(m)) + "\n" == "++m: 2\n";
    lines := lines + ["++m: " + IntToString(MonthValue(m)) + "\n"];
    var size, day := XS, Monday;
    if SizeValue(size) == DayValue(day) {
      lines := lines + ["Different enumeration types are equal?\n"];
    }
    assert |lines| == 4;
  }
}
