# C++ basics demos: a verified model of their self-contained logic

The repository is a set of C++ teaching programs. This project models
the parts that hold statable logic, and proves properties of them in Dafny:

- the fixed-capacity `MaxHeap` buffer (`insert`, `toString`, the heap index arithmetic);
- `binarySearch` over a sorted prefix of an array;
- the Memento pattern sketch (`Originator`, `Memento`, `Caretaker`);
- the `Box`, `Entity` and `X` classes of namespace `mk`;
- the `Month`, `Day`, `Size` and `Rank` enumerations, `++` on `Month` and `printEnum`;
- the `exercise1` triangle figure;
- the pointer and reference helpers (`incrementV1/V2/V3`, `increment_ref`,
  `createAndPassBack`, `modifyValue`, `min_max`, `loopAndCallBack`) and the
  walk-throughs whose results are asserted or noted in comments;
- `getMax`, `getBiggerOfTwo`, the increment lines and the
  character loops of basics.cpp.

There is one Dafny module per source file: `MkDataStructures`, `SearchSort`,
`MementoPattern`, `Domain` (domain.h and domain.cpp), `Enums` (enums.h and
enums.cpp), `Exercises`, `References`, `Pointers`, `PointersReferences` and
`Basics`. Four small modules are shared:

- `Wrappers` holds `Option`.
- `CppInt` holds C++ truncating division. Dafny's `/` is Euclidean.
- `Decimal` holds `std::to_string` / `operator<<` on `int`. It also has a
  reader `ReadInt`, the inverse that both `toString` serialisers are proved
  against.
- `Memory` holds `Cell`, an `int` whose address is taken.

Modelling conventions:

- An object the source updates in place is a Dafny `class`. Its methods carry
  `modifies` clauses, and its `const` member functions that only return a field
  are Dafny functions that only `reads this`: `Box::getCapacity`,
  `Box::getSize`, `Entity::getName`, `Entity::getSize` and
  `Originator::getVersion`. They have no contract of their own; the
  constructors' contracts are stated through them. `const` member functions
  that build a new object (`Box::add`, `operator+`) are methods without a
  `modifies` clause.
- A C++ copy of an object (`Box temp = *this`, or returning a `Box` by value)
  is a fresh object.
- A pointer `int*` is a reference to a `Memory.Cell`. A local reference
  variable bound to a variable is a reference to the same `Cell`. So aliasing
  is real: a write through `xptr` or `xRef` shows in `x`.
- An `int&` parameter is modelled as a value-result pair: the value passed
  in, and the value left in the caller's variable.
- Console output that is part of a property is returned: `printEnum`'s text,
  the lines of `exercise1`, and the values printed by the walk-throughs. All
  other logging is dropped.
- pointers_references.cpp repeats `incrementV1`, `incrementV2`,
  `createAndPassBack`, `modifyValue` and `min_max` from pointers.cpp and
  references.cpp word for word. Its `increment_ref` is `incrementV3` under
  another name. Each is modelled once, in `Pointers` and `References`, and
  `PointersReferences` imports them.

Where the source's comments and its code disagree, the model follows the code:

- The comments on the `pop` calls in datastructures_basics.cpp:23-35 show
  the heap as `{size:N, items:[...]}`; those on the `push` calls at 15-21
  use plain lists. `MaxHeap::toString` (mk_datastructures.h:34-47) renders
  only `[a, b, c]`.
- The comments at datastructures_basics.cpp:15-35 call `push` and `pop` and
  show the heap kept in max-heap order. `MaxHeap` (mk_datastructures.h) has only `insert`, with no sift-up
  and no full check, and neither `push` nor `pop`.
- domain.h:81 versus domain.cpp:96-98: the header declares
  `Entity() = default`, which would give `""` and 0. domain.cpp defines
  `Entity()` to delegate to `Entity("Default")`, so its size is the default
  argument 1. The model follows domain.cpp, which main.cpp's comment
  `"Default"` confirms.

## Model

| member | source | states |
|---|---|---|
| `MkDataStructures.MaxHeap.constructor` | mk_datastructures.h:13-17 | a new heap has size 0, the given capacity and a fresh buffer of exactly that length; a negative capacity is excluded because `new int[cap]` throws |
| `MkDataStructures.MaxHeap.Insert` | mk_datastructures.h:28-32 | needs `size < capacity` (there is no full check); stores `arg` at the old `size`, raises `size` by exactly 1, keeps capacity and every other slot, so the items become the old items followed by `arg` with no reordering; `0 <= size <= capacity` is preserved |
| `MkDataStructures.MaxHeap.ToString` | mk_datastructures.h:34-47 | the loop's text equals `Render` of the items `[0, size)` in array order: "[" + items joined by ", " + "]", so an empty heap gives "[]"; the heap is not modified |
| `MkDataStructures.RenderRoundTrip` | mk_datastructures.h:34-47 | the rendering is lossless: reading it back yields exactly the rendered items |
| `MkDataStructures.MaxHeap.GetParentIndex` | mk_datastructures.h:49-52 | with C++ truncating division the parent of 0 is 0; for `i >= 1` the parent lies in `[0, i)` and `i` is its left or right child index |
| `MkDataStructures.MaxHeap.GetLeftChildIndex` | mk_datastructures.h:54-57 | the left child index is odd, and greater than the node's for a node `i >= 0` |
| `MkDataStructures.MaxHeap.GetRightChildIndex` | mk_datastructures.h:59-62 | the right child index is even, and greater than the node's for a node `i >= 0` |
| `MkDataStructures.ChildParentRoundTrip` | mk_datastructures.h:49-62 | for `i >= 0` the parent of both the left and the right child of `i` is `i` |
| `MkDataStructures.ParentChildRoundTrip` | mk_datastructures.h:49-62 | for `i >= 1`, `i` is the left or the right child of its parent |
| `MkDataStructures.ParentIndexTruncates` | mk_datastructures.h:49-52 | the parent index of -2 is -1 (truncation), where Dafny's Euclidean `(-2-1)/2` is -2 |
| `MkDataStructures.InsertDoesNotHeapify` | mk_datastructures.h:28-32 | `[50]` is heap-ordered but appending 60 as `insert` does is not: the unwritten heapify step matters |
| `MkDataStructures.InsertScenario` | mk_datastructures.h:13-47 | a fresh `MaxHeap(15)` renders "[]"; after inserting 50 and 60 it renders "[50, 60]" |
| `CppInt.TruncDiv` | mk_datastructures.h:51 | the quotient leaves a remainder smaller than the divisor in magnitude and never of the opposite sign to the dividend, i.e. C++ truncation toward zero |
| `SearchSort.BinarySearch` | search_sort.cpp:6-30 | a result other than -1 is an index in `[0, cnt)` holding `arg`; when `arr[0..cnt)` is sorted ascending, -1 means `arg` is absent; with `cnt <= 0` the result is -1 and no element is read; every probed `middle` lies in `[0, cnt)` and a found index is the last probe; the loop terminates (`high - low` decreases) and the array is only read |
| `MementoPattern.Memento.GetVersion` | memento.cpp:19-26 | a memento is determined by the version it returns |
| `MementoPattern.Originator.constructor` | memento.cpp:32-35 | a new originator has version 0 |
| `MementoPattern.Originator.GetVersion` | memento.cpp:37-40 | returns the version field; a `reads this` function, so it cannot change the originator |
| `MementoPattern.Originator.ModifyState` | memento.cpp:41-44 | the version grows by exactly 1 |
| `MementoPattern.Originator.SaveToMemento` | memento.cpp:47-51 | the memento holds the current version; the originator is unchanged |
| `MementoPattern.Originator.RestoreFromMemento` | memento.cpp:54-58 | the version becomes the memento's version |
| `MementoPattern.Caretaker.constructor` | memento.cpp:66-69 | a new caretaker has an empty history |
| `MementoPattern.Caretaker.AddSnapshot` | memento.cpp:72-75 | pushes exactly one memento holding the originator's current version and leaves the originator unchanged |
| `MementoPattern.Caretaker.GetSnapshot` | memento.cpp:76-81 | requires a non-empty history (`top()` on an empty stack is undefined); returns the most recently added snapshot and removes only it (LIFO) |
| `MementoPattern.SaveModifyRestore` | memento.cpp:41-58 | save, then any number `n` of modifications: just before the restore the version is exactly `n` past the saved one; after the restore it is the saved version again |
| `MementoPattern.MementoScenario` | memento.cpp:96-118 | the walk-through reads version 0, reaches 3 after the modifications and is back at 1 after restoring the snapshot |
| `MementoPattern.LifoScenario` | memento.cpp:72-81 | snapshots taken at versions 1 then 2 come back as 2 then 1, and the history ends empty |
| `Domain.Box.Default` | domain.h:17-21 | a default-constructed box has capacity 0 and size 0 |
| `Domain.Box.constructor` | domain.cpp:10-12 | `Box(cap)` has capacity `cap` and size 0 |
| `Domain.Box.AddItems` | domain.cpp:14-17 | adds `itemCount` to the size, unchecked (the size may exceed the capacity or go negative); the capacity is unchanged |
| `Domain.Box.PreIncrement` | domain.cpp:20-24 | the size grows by 1 in place and the same object is returned |
| `Domain.Box.PostIncrement` | domain.cpp:28-33 | returns a fresh copy holding the pre-increment size and capacity; the original's size grows by 1 |
| `Domain.Box.Add` | domain.cpp:36-39 | a fresh box with the sum of the capacities and size 0; neither operand changes |
| `Domain.Box.Plus` | domain.cpp:54-57 | `operator+`: a fresh box with the sum of the capacities and size 0; neither operand changes |
| `Domain.Minus` | domain.cpp:72-75 | `operator-`: a fresh box with capacity `left - right` (possibly negative) and size 0 |
| `Domain.Box.GetCapacity` | domain.h:52-57 | returns the capacity field; a `reads this` function, so it cannot change the box |
| `Domain.Box.GetSize` | domain.h:60-65 | returns the size field; a `reads this` function, so it cannot change the box |
| `Domain.Box.ToString` | domain.cpp:64-67 | the text starts with `Box{"capacity":` and ends with `}` and a newline |
| `Domain.BoxTextRoundTrip` | domain.cpp:64-67 | the capacity and the size can be read back from the `toString` text, so the format `Box{"capacity":C, "size":S}` + newline is unambiguous |
| `Domain.BoxTextInjective` | domain.cpp:64-67 | two boxes with the same text have the same capacity and size |
| `Domain.TextOfHundredEmptyBox` | domain.cpp:64-67 | `Box(100).toString()` is exactly `Box{"capacity":100, "size":0}` and a newline |
| `Domain.BoxScenario` | main.cpp:433-452 | `Box(10)` plus 2 then 3 items has size 5; `box2 + box1` has capacity 110 and `box2 - box1` 90; `box2.toString()` is exactly `Box{"capacity":100, "size":0}` and a newline |
| `Domain.Entity.constructor` | domain.cpp:101-104 | `Entity(name, s)` stores both unchanged; without `s` the size is the default 1 (domain.h:84) |
| `Domain.Entity.Default` | domain.cpp:96-98 | `Entity()` delegates with name "Default" and therefore size 1 |
| `Domain.Entity.GetName` | domain.h:95-98 | returns the name field; a `reads this` function, so it cannot change the entity |
| `Domain.Entity.GetSize` | domain.h:99-102 | returns the size field; a `reads this` function, so it cannot change the entity |
| `Domain.EntityScenario` | main.cpp:456-464 | the default entity is named "Default" and `Entity("ENTITY_2")` has size 1 |
| `Domain.X.Default` | domain.h:220-223 | `X()` has `val == 0` |
| `Domain.X.constructor` | domain.h:225-228 | `X(v)` has `val == v` |
| `Domain.X.Copy` | domain.h:231-234 | the copy constructor copies `val` |
| `Domain.X.Assign` | domain.h:237-246 | copy assignment sets `val` to the other's old `val` (self-assignment included) and returns the same object |
| `Domain.AssignScenario` | domain.h:237-246 | chained `a = b = c` through the returned object leaves all three with `c`'s value |
| `Enums.MonthValue` | enums.h:39-50 | every month's value lies in 1..12 (`Jan = 1`, each next one more) |
| `Enums.MonthOf` | enums.cpp:34 | `Month(v)` for `v` in 1..12 is the month whose value is `v` |
| `Enums.MonthValueInjective` | enums.h:39-50 | a month is recovered from its value, so the twelve values are distinct |
| `Enums.Increment` | enums.cpp:31-36 | `++` maps `Dec` to `Jan` and any other month to the month whose value is one greater |
| `Enums.IncrementIsModular` | enums.cpp:34 | the value after `++` is `value % 12 + 1`, so the result is always in Jan..Dec |
| `Enums.IncrementTimesValue` | enums.cpp:31-36 | `n` increments move the value to `(value - 1 + n) % 12 + 1` |
| `Enums.TwelveIncrementsCycle` | enums.cpp:31-36 | any multiple of 12 increments returns to the starting month |
| `Enums.DayValue` | enums.h:58-67 | every day's value lies in 0..6 |
| `Enums.DayValuesConsecutive` | enums.h:58-67 | `Monday == 0`, `Sunday == 6`, and distinct days have distinct values |
| `Enums.SizeValue` | enums.h:69-77 | every size's value lies in 0..5 |
| `Enums.SizeValuesConsecutive` | enums.h:69-77 | `XS == 0`, `XXL == 5`, and distinct sizes have distinct values |
| `Enums.UnscopedEnumsCompareByValue` | enums.cpp:54-59 | `XS` and `Monday` compare equal: both are 0 |
| `Enums.RankValue` | enums.h:80-84 | `Rank::High == 'H'` and `Rank::Low == 'L'` |
| `Enums.PrintEnum` | enums.cpp:62-79 | Saturday prints exactly "5: Saturday", Sunday exactly "6: Sunday", and exactly the other days print their number followed by ": Well, another weekday." (each with a newline) |
| `Enums.PrintEnumStartsWithValue` | enums.cpp:65 | the number printed first reads back as the day's value |
| `Enums.FridayLine` | enums.cpp:40-41 | `printEnum(Friday)` writes "4: Well, another weekday." and a newline |
| `Enums.EnumBasics` | enums.cpp:38-60 | the four lines written: Friday's line, `Month m: 1`, `++m: 2` (so `++` updated `m` in place), and the equal-enumerations message |
| `Exercises.Exercise1` | exercises.cpp:13-38 | the nested loops produce exactly `Figure(middle)`, an independent definition of the triangle |
| `Exercises.FigureLineCount` | exercises.cpp:18-37 | `2*middle - 1` lines for `middle >= 1`; a single line otherwise |
| `Exercises.FigureWidths` | exercises.cpp:18-37 | line `k` has `k+1` '#' characters up to the middle line and `2*middle-1-k` after it, so the lengths are 1, 2, ..., middle, ..., 2, 1 |
| `Exercises.FigurePalindrome` | exercises.cpp:18-37 | the line sequence reads the same backwards |
| `Exercises.FigureWidest` | exercises.cpp:18-37 | no line is longer than the middle one, which has `middle` characters |
| `Exercises.FigureOfThree` | exercises.cpp:3-11 | middle 3 gives `#`, `##`, `###`, `##`, `#` |
| `Exercises.Hashes` | exercises.cpp:20-21 | every line is made only of '#' and has the requested length |
| `References.ModifyValue` | references.cpp:45-48 | the caller's variable becomes 333 regardless of its prior value |
| `References.MinMax` | references.cpp:51-64 | `min <= max`; `min = x, max = y` when `x < y`, otherwise `min = y, max = x`; so `{min, max} = {x, y}` |
| `References.ReferenceBasics` | references.cpp:7-43 | `x` goes 10, 11, 13, 16 through the pointer, directly and through the reference; the counter becomes 333; `min_max(333, 11)` gives 11 and 333 |
| `Pointers.IncrementV1` | pointers.cpp:143 | returns one more than its argument (the caller's variable is untouched, see `PointerBasics`) |
| `Pointers.IncrementV2` | pointers.cpp:145-150 | the pointee grows by exactly 1 |
| `Pointers.IncrementV3` | pointers.cpp:167-171 | the referenced variable grows by exactly 1 |
| `Pointers.CreateAndPassBack` | pointers.cpp:173-186 | a fresh array of length `size` with element `i` equal to `10*i` |
| `Pointers.PointerBasics` | pointers.cpp:7-141 | the asserted `a == 10` and `b == 1` after the retargeted writes; `r[4] == 40`; `incrementV1` yields 11 while `x` stays 10, then `x` becomes 11 and 12 |
| `PointersReferences.LoopAndCallBack` | pointers_references.cpp:387-392 | the callback is invoked exactly once per element of `v`, in order |
| `PointersReferences.FunctionPointerBasics` | pointers_references.cpp:394-397 | the callback sees 1, 2, 3, 4, 5 |
| `PointersReferences.PointerBasics` | pointers_references.cpp:15-273 | the asserted `a == 10` and `b == 1`; the decayed array's first element is 11; `r[4] == 40`; `x` stays 10, then becomes 11 and, by `increment_ref`, 12 |
| `PointersReferences.ReferenceBasics` | pointers_references.cpp:399-460 | `x` goes 11, 13, 16, 17 (the last through `increment_ref`); `min_max(333, 11)` gives 11 and 333 |
| `Basics.GetBiggerOfTwo` | basics.cpp:881-884 | the result is at least both arguments and equal to one of them |
| `Basics.GetMax` | basics.cpp:861-864 | `a` when `a > b`, `b` otherwise (so `b` on ties) |
| `Basics.GetMaxIsBiggerOfTwo` | basics.cpp:861-884 | the two functions agree on every input, and `getMax` is symmetric in value |
| `Basics.PostIncrement` | basics.cpp:155 | `y = cnt++` gives `y` the old value and adds 1 to `cnt` |
| `Basics.PreIncrement` | basics.cpp:156 | `y = ++cnt` adds 1 to `cnt` and gives `y` the new value |
| `Basics.IncrementLines` | basics.cpp:154-156 | from 39: `y` 39 and `cnt` 40, then `y` 41 and `cnt` 41 |
| `Basics.IntegerDivision` | basics.cpp:161 | integer `3 / 2` is 1 (and `-3 / 2` truncates to -1) |
| `Basics.ToUpper` | basics.cpp:319 | lower-case letters map to their upper-case letter; every other character is untouched |
| `Basics.ToUpperIdempotent` | basics.cpp:317-320 | converting twice equals converting once, and the character classes are kept |
| `Basics.ScanUsername` | basics.cpp:303-314 | the count is the number of `ispunct` characters; the flag is false exactly when some character is not `isalnum` |
| `Basics.PunctCountBounded` | basics.cpp:306-314 | the punctuation count is at most the length, and equals it exactly when every character is punctuation |
| `Basics.AlnumHasNoPunct` | basics.cpp:308-314 | an all-alphanumeric string has punctuation count 0 |
| `Basics.Uppercase` | basics.cpp:317-320 | each character is replaced in place by its `toupper`; the length is unchanged and non-lower-case characters stay |
| `Basics.StringBasics` | basics.cpp:303-324 | `"$abc123_"` has 2 punctuation characters, is not all alphanumeric, and upper-cases to `"$ABC123_"` |

## Left out

- Heap `push`/`pop`, sift-up/sift-down, and the `INT_MIN` sentinel. datastructures_basics.cpp calls them, but mk_datastructures.h does not define them: the class has only `insert`. `IsMaxHeap` is defined only as a notion, and `InsertDoesNotHeapify` shows that `insert` does not keep it.
- `MaxHeap` destructor, and all constructor/destructor logging: memory release and console output.
- Machine-integer overflow. `size++`, the `Box` capacity sums, `(high + low) / 2` in `binarySearch`, `10 * i` and every increment use unbounded integers. 32-bit wrap-around is not modelled.
- SearchSort.BinarySearch: the C++ pointer may be null or shorter than `cnt`. The model takes a non-null array of at least `cnt` elements.
- References.MinMax: binding both output references to the same variable is not modelled. Distinct out-parameters cannot alias.
- Basics.GetMax: only the `int` instantiation of the template is modelled. Which of two equal objects is referenced cannot be seen on values. The `double` call is floating point.
- Basics.IsPunct / Basics.IsAlnum / Basics.ToUpper: the "C" locale on ASCII only. Other locales, and `char` values outside 0..127, are not modelled.
- Pointers.CreateAndPassBack: the `double` elements are modelled as reals. They are small integers, exact in a double, so nothing is rounded.
- Enums.Increment: C++ `operator++(Month&)` assigns to its argument and returns it. The model is a function, and callers write `m := Increment(m)`.
- Entity copy constructor, `operator==` for `Entity`, `operator<<` for `Entity` (domain.h:110) and `~Box` are declared in domain.h but defined in neither domain.h nor domain.cpp.
- `operator<<` for `Box` (domain.cpp:85-89) writes `box.toString()` followed by `endl`, so the console text of a box ends in two newlines; it is output only, and the model states the `toString` text.
- MkDataStructures.MaxHeap.constructor and Pointers.CreateAndPassBack: `new T[n]` with a negative `n` throws `std::bad_array_new_length`; the exception path is not modelled, so both require a non-negative size.
- `Caretaker::doSomething` (empty) and `Caretaker::undo` (no return statement: undefined behaviour).
- Deliberate undefined behaviour in the demos: uninitialised reads, the out-of-range writes `pd[4]`/`pd[-3]`, `returnTheAddressOfALocal` and the dangling `ePtr`.
- STL demonstrations (containers, vector/iterator/array/list/stack walk-throughs, lambdas), console and file I/O, floating point (`Circle::area`, double casts and prints), and the language-feature demos with no statable logic (`Shape2D` hierarchy, `NoCopy`, exceptions, macros).
