/**
 * An `int` object whose address is taken. A raw pointer `int*` to it, or a
 * local reference variable bound to it, is a Dafny reference to the same
 * `Cell`, so writes through any of them are seen through all of them.
 */
module Memory {
  class Cell {
    var value: int

    constructor (v: int)
      ensures value == v
    {
      value := v;
    }
  }
}
