/**
 * The Memento pattern sketch of memento.cpp: an `Originator` owning a version
 * counter, `Memento` snapshots of it, and a `Caretaker` keeping a LIFO stack
 * of snapshots. The console logging of each step is not modelled.
 */
module MementoPattern {
  /** A snapshot of an originator's version; copied by value like the C++ class. */
  datatype Memento = Memento(version: int) {
    function GetVersion(): (v: int)
      ensures Memento(v) == this
    {
      version
    }
  }

  class Originator {
    var version: int

    constructor ()
      ensures GetVersion() == 0
    {
      version := 0;
    }

    /** A `const` member function: it reads the originator and changes nothing. */
    function GetVersion(): int
      reads this
    {
      version
    }

    /** `++version`. */
    method ModifyState()
      modifies this
      ensures version == old(version) + 1
    {
      version := version + 1;
    }

    /** A snapshot of the current version; the originator is not changed. */
    method SaveToMemento() returns (m: Memento)
      ensures m.version == version
    {
      m := Memento(version);
    }

    method RestoreFromMemento(m: Memento)
      modifies this
      ensures version == m.version
    {
      version := m.GetVersion();
    }
  }

  class Caretaker {
    /** The `std::stack` of snapshots; its last element is the top. */
    var history: seq<Memento>

    constructor ()
      ensures history == []
    {
      history := [];
    }

    /** Pushes one snapshot of `o`'s current version. */
    method AddSnapshot(o: Originator)
      modifies this
      ensures history == old(history) + [Memento(o.version)]
      ensures o.version == old(o.version)
    {
      var m := o.SaveToMemento();
      history := history + [m];
    }

    /**
     * Pops and returns the top snapshot. `top()` on an empty `std::stack` is
     * undefined, so the history must be non-empty.
     */
    method GetSnapshot() returns (m: Memento)
      requires history != []
      modifies this
      ensures m == old(history)[|old(history)| - 1]
      ensures history == old(history)[..|old(history)| - 1]
    {
      m := history[|history| - 1];
      history := history[..|history| - 1];
    }
  }

  /**
   * Save, then `n` modifications, then restore: just before the restore the
   * version is `n` past the saved one, and afterwards the saved version is
   * back, whatever `n` is.
   */
  method SaveModifyRestore(o: Originator, n: nat) returns (saved: Memento, beforeRestore: int)
    modifies o
    ensures saved.version == old(o.version)
    ensures beforeRestore == old(o.version) + n
    ensures o.version == old(o.version)
  {
    saved := o.SaveToMemento();
    var i := 0;
    while i < n
      invariant 0 <= i <= n
      invariant o.version == saved.version + i
    {
      o.ModifyState();
      i := i + 1;
    }
    beforeRestore := o.GetVersion();
    o.RestoreFromMemento(saved);
  }

  /**
   * The `memento()` walk-through: version 0, modify to 1, snapshot, modify
   * twice to 3, then restore the snapshot.
   */
  method MementoScenario() returns (initial: int, beforeUndo: int, current: int)
    ensures initial == 0 && beforeUndo == 3 && current == 1
  {
    var caretaker := new Caretaker();
    var originator := new Originator();
    initial := originator.GetVersion();
    originator.ModifyState();
    caretaker.AddSnapshot(originator);
    originator.ModifyState();
    originator.ModifyState();
    beforeUndo := originator.GetVersion();
    var prevState := caretaker.GetSnapshot();
    originator.RestoreFromMemento(prevState);
    current := originator.GetVersion();
  }

  /** Two snapshots come back newest first, and the history ends empty. */
  method LifoScenario() returns (first: int, second: int, remaining: nat)
    ensures first == 2 && second == 1 && remaining == 0
  {
    var caretaker := new Caretaker();
    var originator := new Originator();
    originator.ModifyState();
    caretaker.AddSnapshot(originator);
    originator.ModifyState();
    caretaker.AddSnapshot(originator);
    var m1 := caretaker.GetSnapshot();
    var m2 := caretaker.GetSnapshot();
    first, second := m1.version, m2.version;
    remaining := |caretaker.history|;
  }
}
