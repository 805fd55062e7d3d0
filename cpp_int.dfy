/**
 * C++ integer division. Dafny's `/` on `int` is Euclidean; C++ (since C++11)
 * truncates the quotient toward zero, so `-3 / 2 == -1` there.
 */
module CppInt {
  function Abs(a: int): (r: nat)
    ensures r == a || r == -a
  {
    if a < 0 then -a else a
  }

  /** The quotient `a / b` as C++ computes it on `int` (ignoring overflow). */
  function TruncDiv(a: int, b: int): (q: int)
    requires b != 0
    // the remainder a - q*b is smaller than the divisor in magnitude ...
    ensures Abs(a - q * b) < Abs(b)
    // ... and never has the opposite sign of the dividend (truncation, not flooring)
    ensures a - q * b == 0 || (a - q * b < 0) == (a < 0)
  {
    var q := Abs(a) / Abs(b);
    if (a < 0) == (b < 0) then q else -q
  }
}
