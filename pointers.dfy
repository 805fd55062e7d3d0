/**
 * pointers.cpp: increments by value, through a pointer and through a
 * reference, an array allocated by the callee, and the asserted writes
 * through a retargeted pointer in `pointerBasics`.
 */
module Pointers {
  import opened Memory

  /** `return ++arg`: only the callee's copy is incremented. */
  function IncrementV1(arg: int): (r: int)
    ensures r - arg == 1
  {
    arg + 1
  }

  /** `(*arg)++`: the pointee grows by exactly one. */
  method IncrementV2(arg: Cell)
    modifies arg
    ensures arg.value == old(arg.value) + 1
  {
    arg.value := arg.value + 1;
  }

  /** `arg++` on an `int&`: the caller's variable grows by exactly one. */
  method IncrementV3(arg: int) returns (arg': int)
    ensures arg' == arg + 1
  {
    arg' := arg;
    arg' := arg' + 1;
  }

  /**
   * `new double[size]` filled with `10 * i`; the caller owns the result.
   * `new` with a negative size throws, so `size` is non-negative. The
   * values are small integers, exact as doubles, modelled as reals.
   */
  method CreateAndPassBack(size: int) returns (res: array<real>)
    requires size >= 0
    ensures fresh(res) && res.Length == size
    ensures forall i :: 0 <= i < size ==> res[i] == (10 * i) as real
  {
    res := new real[size];
    for i := 0 to size
      invariant forall k :: 0 <= k < i ==> res[k] == (10 * k) as real
    {
      res[i] := (10 * i) as real;
    }
  }

  /**
   * `pointerBasics`: the asserted values of `a` and `b`, `r[4]` of the
   * passed-back array, and `x` after each increment.
   */
  method PointerBasics() returns (a: int, b: int, r4: real, y: int, xs: seq<int>)
    ensures a == 10 && b == 1
    ensures r4 == 40.0
    ensures y == 11 && xs == [10, 11, 12]
  {
    var x := new Cell(10);
    var px := x;
    var ca := new Cell(5);
    var cb := new Cell(6);
    var ptr := ca;
    ptr.value := ptr.value + 5;
    ptr := cb;
    ptr.value := 1;
    a, b := ca.value, cb.value;
    var r := CreateAndPassBack(5);
    r4 := r[4];
    y := IncrementV1(x.value);
    xs := [x.value];
    IncrementV2(px);
    xs := xs + [x.value];
    x.value := IncrementV3(x.value);
    xs := xs + [x.value];
  }
}
