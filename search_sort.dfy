/**
 * `binarySearch` of search_sort.cpp: looks for `arg` among the first `cnt`
 * elements of `arr`, halving the window `[low, high]` until the middle
 * element matches or the window is empty. It only reads the array.
 */
module SearchSort {
  /** `arr[0 .. cnt)` is in ascending order. */
  ghost predicate SortedPrefix(arr: array<int>, cnt: int)
    reads arr
    requires cnt <= arr.Length
  {
    forall i, j :: 0 <= i < j < cnt ==> arr[i] <= arr[j]
  }

  /**
   * Returns an index of `arg` or -1. The ghost `probes` lists every index
   * `middle` read by the loop, in order. The caller passes a count within
   * the array (C++ reads past it otherwise).
   */
  method BinarySearch(arr: array<int>, cnt: int, arg: int) returns (r: int, ghost probes: seq<int>)
    requires cnt <= arr.Length
    ensures r == -1 || (0 <= r < cnt && arr[r] == arg)
    ensures SortedPrefix(arr, cnt) && r == -1 ==> forall k :: 0 <= k < cnt ==> arr[k] != arg
    ensures cnt <= 0 ==> r == -1 && probes == []
    ensures forall k :: 0 <= k < |probes| ==> 0 <= probes[k] < cnt
    ensures r != -1 ==> probes != [] && probes[|probes| - 1] == r
  {
    var low := 0;
    var high := cnt - 1;
    probes := [];
    while low <= high
      invariant 0 <= low && high < cnt
      invariant forall k :: 0 <= k < |probes| ==> 0 <= probes[k] < cnt
      invariant cnt <= 0 ==> probes == []
      // outside the window nothing equals arg (when the prefix is sorted)
      invariant SortedPrefix(arr, cnt) ==>
        forall k :: 0 <= k < cnt && (k < low || high < k) ==> arr[k] != arg
      decreases high - low
    {
      var middle := (high + low) / 2;
      assert low <= middle <= high;
      probes := probes + [middle];
      if arr[middle] == arg {
        return middle, probes;
      } else if arr[middle] > arg {
        high := middle - 1;
      } else {
        low := middle + 1;
      }
    }
    return -1, probes;
  }
}
