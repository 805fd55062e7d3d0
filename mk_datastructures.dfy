/**
 * The `MaxHeap` of mk_datastructures.h: a fixed-capacity integer buffer with a
 * fill counter. `insert` appends without reordering (the heapify step is not
 * written), `toString` renders the filled part, and three helpers give the
 * index arithmetic of a binary heap stored in an array.
 */
module MkDataStructures {
  import opened Wrappers
  import opened CppInt
  import opened Decimal

  /** The items `[0, size)` joined by ", ", in array order. */
  function Joined(items: seq<int>): string {
    if |items| == 0 then ""
    else if |items| == 1 then IntToString(items[0])
    else IntToString(items[0]) + ", " + Joined(items[1..])
  }

  /** What `toString` produces for the filled part `items` of the buffer. */
  function Render(items: seq<int>): string {
    "[" + Joined(items) + "]"
  }

  /** Reads a non-empty ", "-separated list of integers making up all of `t`. */
  function ParseItems(t: string): Option<seq<int>>
    decreases |t|
  {
    match ReadInt(t)
    case None => None
    case Some((v, rest)) =>
      if rest == [] then Some([v])
      else if |rest| >= 2 && rest[..2] == ", " && |rest| < |t| then
        match ParseItems(rest[2..])
        case None => None
        case Some(vs) => Some([v] + vs)
      else None
  }

  /** Reads back a rendering "[a, b, ...]" as the list of its items. */
  function ParseRendered(s: string): Option<seq<int>> {
    if |s| >= 2 && s[0] == '[' && s[|s| - 1] == ']' then
      if |s| == 2 then Some([]) else ParseItems(s[1..|s| - 1])
    else None
  }

  lemma {:induction false} ParseJoined(items: seq<int>)
    requires |items| >= 1
    ensures ParseItems(Joined(items)) == Some(items)
    decreases |items|
  {
    var head := IntToString(items[0]);
    if |items| == 1 {
      ReadIntRoundTrip(items[0], "");
      assert head + "" == head;
      assert items == [items[0]];
    } else {
      var tail := Joined(items[1..]);
      ReadIntRoundTrip(items[0], ", " + tail);
      assert Joined(items) == head + (", " + tail);
      assert (", " + tail)[2..] == tail;
      ParseJoined(items[1..]);
      assert [items[0]] + items[1..] == items;
    }
  }

  /** The rendering loses nothing: the items can be read back from it. */
  lemma RenderRoundTrip(items: seq<int>)
    ensures ParseRendered(Render(items)) == Some(items)
  {
    var s := Render(items);
    if |items| == 0 {
      assert s == "[]";
    } else {
      assert s[1..|s| - 1] == Joined(items);
      ParseJoined(items);
    }
  }

  /** Appending right-extends the joined text, as the `toString` loop builds it. */
  lemma {:induction false} JoinedSnoc(items: seq<int>, x: int)
    requires |items| >= 1
    ensures Joined(items + [x]) == Joined(items) + ", " + IntToString(x)
    decreases |items|
  {
    var head, last := IntToString(items[0]), IntToString(x);
    if |items| > 1 {
      var rest := items[1..];
      assert (items + [x])[1..] == rest + [x];
      JoinedSnoc(rest, x);
      assert Joined(items + [x]) == head + ", " + (Joined(rest) + ", " + last);
      assert Joined(items) == head + ", " + Joined(rest);
    } else {
      assert (items + [x])[1..] == [x];
      assert Joined(items + [x]) == head + ", " + last;
    }
  }

  /** The heap order of an implicit binary tree; `insert` does not maintain it. */
  ghost predicate IsMaxHeap(items: seq<int>) {
    forall i {:trigger items[i]} :: 0 < i < |items| ==> items[MaxHeap.GetParentIndex(i)] >= items[i]
  }

  class MaxHeap {
    var arr: array<int>
    var size: int
    var capacity: int

    ghost predicate Valid()
      reads this
    {
      0 <= size <= capacity && capacity == arr.Length
    }

    /** The stored items, `arr[0 .. size)`. */
    ghost function Items(): seq<int>
      reads this, arr
      requires Valid()
    {
      arr[..size]
    }

    /** `new int[cap]` with a negative `cap` throws, so `cap` is non-negative. */
    constructor (cap: int)
      requires cap >= 0
      ensures Valid() && fresh(arr)
      ensures capacity == cap && size == 0 && arr.Length == cap
      ensures Items() == []
    {
      capacity := cap;
      size := 0;
      arr := new int[cap];
    }

    /**
     * `arr[size++] = arg`: there is no full check, so the caller must leave
     * room. The value goes to the first free slot; nothing moves.
     */
    method Insert(arg: int)
      requires Valid() && size < capacity
      modifies this, arr
      ensures Valid()
      ensures arr == old(arr) && capacity == old(capacity)
      ensures size == old(size) + 1
      ensures arr[..] == old(arr[..])[old(size) := arg]
      ensures Items() == old(Items()) + [arg]
    {
      arr[size] := arg;
      size := size + 1;
    }

    method ToString() returns (s: string)
      requires Valid()
      ensures s == Render(arr[..size])
    {
      s := "[";
      var i := 0;
      while i < size
        invariant 0 <= i <= size
        invariant s == "[" + Joined(arr[..i])
      {
        assert arr[..i + 1] == arr[..i] + [arr[i]];
        if i > 0 {
          JoinedSnoc(arr[..i], arr[i]);
          s := s + ", ";
        }
        s := s + IntToString(arr[i]);
        i := i + 1;
      }
      assert arr[..size] == arr[..i];
      s := s + "]";
    }

    /** `(nodeIndex - 1) / 2`, with C++ truncating division. */
    static function GetParentIndex(nodeIndex: int): (p: int)
      ensures nodeIndex == 0 ==> p == 0
      ensures nodeIndex >= 1 ==> 0 <= p < nodeIndex
      ensures nodeIndex >= 1 ==> 2 * p + 1 == nodeIndex || 2 * p + 2 == nodeIndex
    {
      TruncDiv(nodeIndex - 1, 2)
    }

    static function GetLeftChildIndex(nodeIndex: int): (c: int)
      ensures nodeIndex >= 0 ==> c > nodeIndex
      ensures c % 2 == 1
    {
      2 * nodeIndex + 1
    }

    static function GetRightChildIndex(nodeIndex: int): (c: int)
      ensures nodeIndex >= 0 ==> c > nodeIndex
      ensures c % 2 == 0
    {
      2 * nodeIndex + 2
    }
  }

  /** Both children of a node lead back to it. */
  lemma ChildParentRoundTrip(i: int)
    requires i >= 0
    ensures MaxHeap.GetParentIndex(MaxHeap.GetLeftChildIndex(i)) == i
    ensures MaxHeap.GetParentIndex(MaxHeap.GetRightChildIndex(i)) == i
  {
  }

  /** Every non-root node is the left or the right child of its parent. */
  lemma ParentChildRoundTrip(i: int)
    requires i >= 1
    ensures var p := MaxHeap.GetParentIndex(i);
            MaxHeap.GetLeftChildIndex(p) == i || MaxHeap.GetRightChildIndex(p) == i
  {
  }

  /** Truncation, not flooring: Euclidean `(-2 - 1) / 2` would be -2. */
  lemma ParentIndexTruncates()
    ensures MaxHeap.GetParentIndex(-2) == -1
    ensures (-2 - 1) / 2 == -2
  {
  }

  /** Because no heapify follows the append, `insert` can break the heap order. */
  lemma InsertDoesNotHeapify()
    ensures IsMaxHeap([50])
    ensures !IsMaxHeap([50] + [60])
  {
    assert ([50] + [60])[(1 - 1) / 2] < ([50] + [60])[1];
  }

  /** A fresh heap of capacity 15, two inserts, and the two renderings. */
  method InsertScenario() returns (empty: string, filled: string)
    ensures empty == "[]"
    ensures filled == "[50, 60]"
  {
    var heap := new MaxHeap(15);
    empty := heap.ToString();
    heap.Insert(50);
    heap.Insert(60);
    filled := heap.ToString();
    assert heap.arr[..heap.size] == [50, 60];
    assert NatToString(5) == "5" && NatToString(6) == "6";
    assert IntToString(50) == "50" && IntToString(60) == "60";
    assert [50, 60][1..] == [60];
    assert Joined([50, 60]) == "50, 60";
  }
}
