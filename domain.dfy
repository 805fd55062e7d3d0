/**
 * The value classes of domain.h / domain.cpp in namespace `mk`: `Box` (a
 * capacity and a fill count with in-place increments and arithmetic that
 * builds new boxes), `Entity` (a name and a size) and the test struct `X`.
 * C++ copies objects by value; a copy is modelled as a fresh object.
 */
module Domain {
  import opened Wrappers
  import opened Decimal

  const BoxPrefix: string := "Box{\"capacity\":"
  const BoxMiddle: string := ", \"size\":"
  const BoxSuffix: string := "}\n"

  /** Reads back the capacity and the size from a `Box::toString` text. */
  function ParseBoxText(s: string): Option<(int, int)> {
    if |s| >= |BoxPrefix| && s[..|BoxPrefix|] == BoxPrefix then
      match ReadInt(s[|BoxPrefix|..])
      case None => None
      case Some((c, rest)) =>
        if |rest| >= |BoxMiddle| && rest[..|BoxMiddle|] == BoxMiddle then
          match ReadInt(rest[|BoxMiddle|..])
          case None => None
          case Some((n, tail)) => if tail == BoxSuffix then Some((c, n)) else None
        else None
    else None
  }

  class Box {
    var capacity: int
    var size: int

    /** `Box() = default`: both members keep their initialisers, 0. */
    constructor Default()
      ensures GetCapacity() == 0 && GetSize() == 0
    {
      capacity := 0;
      size := 0;
    }

    constructor (cap: int)
      ensures GetCapacity() == cap && GetSize() == 0
    {
      capacity := cap;
      size := 0;
    }

    /** A `const` member function: it can read the object and change nothing. */
    function GetCapacity(): int
      reads this
    {
      capacity
    }

    function GetSize(): int
      reads this
    {
      size
    }

    /** `size += itemCount`, with no check against the capacity or the sign. */
    method AddItems(itemCount: int)
      modifies this
      ensures size == old(size) + itemCount
      ensures capacity == old(capacity)
    {
      size := size + itemCount;
    }

    /** Prefix `++`: increments in place and returns this same object. */
    method PreIncrement() returns (self: Box)
      modifies this
      ensures self == this
      ensures size == old(size) + 1 && capacity == old(capacity)
    {
      size := size + 1;
      self := this;
    }

    /** Postfix `++`: a copy holding the old size; this object is incremented. */
    method PostIncrement() returns (temp: Box)
      modifies this
      ensures fresh(temp)
      ensures temp.capacity == old(capacity) && temp.size == old(size)
      ensures size == old(size) + 1 && capacity == old(capacity)
    {
      temp := new Box(capacity);
      temp.size := size;
      var _ := PreIncrement();
    }

    /** `add`: a new empty box whose capacity is the sum; neither operand changes. */
    method Add(other: Box) returns (r: Box)
      ensures fresh(r)
      ensures r.capacity == capacity + other.capacity && r.size == 0
    {
      r := new Box(capacity + other.GetCapacity());
    }

    /** Member `operator+`, the same construction as `add`. */
    method Plus(other: Box) returns (r: Box)
      ensures fresh(r)
      ensures r.capacity == capacity + other.capacity && r.size == 0
    {
      r := new Box(capacity + other.GetCapacity());
    }

    /** `Box{"capacity":C, "size":S}` and a newline. */
    function ToString(): (s: string)
      reads this
      ensures |s| > |BoxPrefix| + |BoxSuffix|
      ensures s[..|BoxPrefix|] == BoxPrefix
      ensures s[|s| - |BoxSuffix|..] == BoxSuffix
    {
      BoxPrefix + IntToString(capacity) + BoxMiddle + IntToString(size) + BoxSuffix
    }
  }

  /** Non-member `operator-`: a new empty box; the capacity may go negative. */
  method Minus(left: Box, right: Box) returns (r: Box)
    ensures fresh(r)
    ensures r.capacity == left.capacity - right.capacity && r.size == 0
  {
    r := new Box(left.GetCapacity() - right.GetCapacity());
  }

  /** The text of `toString` determines the box's capacity and size. */
  lemma BoxTextRoundTrip(b: Box)
    ensures ParseBoxText(b.ToString()) == Some((b.capacity, b.size))
  {
    var c, n := IntToString(b.capacity), IntToString(b.size);
    var s := b.ToString();
    assert s[..|BoxPrefix|] == BoxPrefix;
    var afterPrefix := s[|BoxPrefix|..];
    assert afterPrefix == c + (BoxMiddle + n + BoxSuffix);
    ReadIntRoundTrip(b.capacity, BoxMiddle + n + BoxSuffix);
    var rest := BoxMiddle + n + BoxSuffix;
    assert rest[..|BoxMiddle|] == BoxMiddle;
    assert rest[|BoxMiddle|..] == n + BoxSuffix;
    ReadIntRoundTrip(b.size, BoxSuffix);
  }

  /** Boxes whose texts agree have the same capacity and size. */
  lemma BoxTextInjective(a: Box, b: Box)
    requires a.ToString() == b.ToString()
    ensures a.capacity == b.capacity && a.size == b.size
  {
    BoxTextRoundTrip(a);
    BoxTextRoundTrip(b);
  }

  /** The `main.cpp` box session: two `addItems`, `+`, `-`, and the `toString` text of `box2`. */
  method BoxScenario() returns (size1: int, cap3: int, cap4: int, text2: string)
    ensures size1 == 5 && cap3 == 110 && cap4 == 90
    ensures text2 == "Box{\"capacity\":100, \"size\":0}\n"
  {
    var box1 := new Box(10);
    box1.AddItems(2);
    box1.AddItems(3);
    size1 := box1.GetSize();
    var box2 := new Box(100);
    var box3 := box2.Plus(box1);
    var box4 := Minus(box2, box1);
    cap3, cap4 := box3.GetCapacity(), box4.GetCapacity();
    text2 := box2.ToString();
    TextOfHundredEmptyBox();
  }

  /** `box2.toString()` for `Box(100)`; `cout << box2` writes one more newline after it. */
  lemma TextOfHundredEmptyBox()
    ensures BoxPrefix + IntToString(100) + BoxMiddle + IntToString(0) + BoxSuffix
         == "Box{\"capacity\":100, \"size\":0}\n"
  {
    assert NatToString(1) == "1";
    assert NatToString(10) == "10";
    assert IntToString(100) == "100";
    assert IntToString(0) == "0";
  }

  class Entity {
    var name: string
    var size: int

    /**
     * `Entity(const string &n, int s = 1)`: stores both unchanged; a call
     * without the size gets 1.
     */
    constructor (n: string, s: int := 1)
      ensures GetName() == n && GetSize() == s
    {
      name := n;
      size := s;
    }

    /** `Entity() : Entity("Default")`, so the size is the default 1. */
    constructor Default()
      ensures GetName() == "Default" && GetSize() == 1
    {
      name := "Default";
      size := 1;
    }

    function GetName(): string
      reads this
    {
      name
    }

    function GetSize(): int
      reads this
    {
      size
    }
  }

  /** `Entity e2("ENTITY_2")` takes the default size. */
  method EntityScenario() returns (defaultName: string, size2: int)
    ensures defaultName == "Default" && size2 == 1
  {
    var e := new Entity.Default();
    defaultName := e.GetName();
    var e2 := new Entity("ENTITY_2");
    size2 := e2.GetSize();
  }

  /** The test struct `X` with its constructors and copy assignment. */
  class X {
    var val: int

    constructor Default()
      ensures val == 0
    {
      val := 0;
    }

    constructor (v: int)
      ensures val == v
    {
      val := v;
    }

    constructor Copy(other: X)
      ensures val == other.val
    {
      val := other.val;
    }

    /** Copy assignment: takes `other.val` and returns this same object. */
    method Assign(other: X) returns (self: X)
      modifies this
      ensures val == old(other.val) && self == this
    {
      val := other.val;
      self := this;
    }
  }

  /** `a = b = c` assigns right to left through the returned object. */
  method AssignScenario() returns (a: int, b: int, c: int)
    ensures a == 3 && b == 3 && c == 3
  {
    var xa := new X.Default();
    var xb := new X(2);
    var xc := new X(3);
    var r := xb.Assign(xc);
    r := xa.Assign(r);
    a, b, c := xa.val, xb.val, xc.val;
  }
}
