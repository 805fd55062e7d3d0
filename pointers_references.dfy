/**
 * pointers_references.cpp. Its `incrementV1`, `incrementV2`,
 * `createAndPassBack`, `modifyValue` and `min_max` are the same definitions
 * as in pointers.cpp and references.cpp, and `increment_ref` is
 * pointers.cpp's `incrementV3` under another name; this module uses those
 * models and adds the callback loop and this file's two walk-throughs.
 */
module PointersReferences {
  import opened Memory
  import opened Pointers
  import opened References

  /**
   * `loopAndCallBack(v, f)`: calls `f` once per element of `v`, in order.
   * The callback's effect is modelled as the event it produces; the result
   * is the sequence of events, one per call.
   */
  method LoopAndCallBack<E>(v: seq<int>, f: int -> E) returns (events: seq<E>)
    ensures |events| == |v|
    ensures forall i :: 0 <= i < |v| ==> events[i] == f(v[i])
  {
    events := [];
    for i := 0 to |v|
      invariant |events| == i
      invariant forall k :: 0 <= k < i ==> events[k] == f(v[k])
    {
      events := events + [f(v[i])];
    }
  }

  /** `functionPointerBasics`: the printing callback sees 1, 2, 3, 4, 5. */
  method FunctionPointerBasics() returns (printed: seq<int>)
    ensures printed == [1, 2, 3, 4, 5]
  {
    var nums := [1, 2, 3, 4, 5];
    printed := LoopAndCallBack(nums, n => n);
  }

  /**
   * `pointerBasics` of this file: the asserted `a` and `b`, the first element
   * read through the decayed array, `r[4]`, and `x` after each increment
   * (the last by `increment_ref`).
   */
  method PointerBasics() returns (a: int, b: int, first: int, r4: real, y: int, xs: seq<int>)
    ensures a == 10 && b == 1 && first == 11
    ensures r4 == 40.0
    ensures y == 11 && xs == [10, 11, 12]
  {
    var x := new Cell(10);
    var px := x;
    var ca := new Cell(5);
    var cb := new Cell(6);
    var ptr := ca;
    ptr.value := ptr.value + 5;
    ptr := cb;
    ptr.value := 1;
    a, b := ca.value, cb.value;
    var arr := new int[5] [11, 22, 33, 44, 55];
    first := arr[0];
    var r := CreateAndPassBack(5);
    r4 := r[4];
    y := IncrementV1(x.value);
    xs := [x.value];
    IncrementV2(px);
    xs := xs + [x.value];
    x.value := IncrementV3(x.value);
    xs := xs + [x.value];
  }

  /**
   * `referenceBasics` of this file: `x` through a pointer, directly, through
   * a reference and through `increment_ref`, then `min_max(333, 11)`.
   */
  method ReferenceBasics() returns (printed: seq<int>, min: int, max: int)
    ensures printed == [11, 13, 16, 17]
    ensures min == 11 && max == 333
  {
    var x := new Cell(10);
    var xptr := x;
    var xRef := x;
    xptr.value := xptr.value + 1;
    printed := [x.value];
    x.value := x.value + 2;
    printed := printed + [x.value];
    xRef.value := xRef.value + 3;
    printed := printed + [x.value];
    x.value := IncrementV3(x.value);
    printed := printed + [x.value];
    min, max := MinMax(333, 11);
  }
}
