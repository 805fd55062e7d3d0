/**
 * references.cpp: `int&` output parameters and writes through a pointer and
 * a reference bound to the same variable. A reference parameter is modelled
 * as a value-result pair: the value passed in and the value the callee
 * leaves in the caller's variable.
 */
module References {
  import opened Memory

  /** `arg = 333`, whatever the caller's variable held. */
  method ModifyValue(arg: int) returns (arg': int)
    ensures arg' == 333
  {
    arg' := 333;
  }

  /**
   * `min_max(min, max, x, y)`: the two output references receive the
   * smaller and the larger argument; on a tie both get the same value.
   */
  method MinMax(x: int, y: int) returns (min: int, max: int)
    ensures min <= max
    ensures x < y ==> min == x && max == y
    ensures x >= y ==> min == y && max == x
    ensures {min, max} == {x, y}
  {
    if x < y {
      min := x;
      max := y;
    } else {
      min := y;
      max := x;
    }
  }

  /**
   * `referenceBasics`: the four printed values of `x` as it is changed through
   * a pointer, directly and through a reference, then the counter and the
   * minimum and maximum of 333 and 11.
   */
  method ReferenceBasics() returns (printed: seq<int>, counter: int, min: int, max: int)
    ensures printed == [10, 11, 13, 16]
    ensures counter == 333 && min == 11 && max == 333
  {
    var x := new Cell(10);
    var xptr := x;
    var xRef := x;
    printed := [x.value];
    xptr.value := xptr.value + 1;
    printed := printed + [x.value];
    x.value := x.value + 2;
    printed := printed + [x.value];
    xRef.value := xRef.value + 3;
    printed := printed + [x.value];
    counter := 0;
    counter := ModifyValue(counter);
    min, max := MinMax(333, 11);
  }
}
