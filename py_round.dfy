/**
 * Python's `round(x, 1)` on exact reals.
 *
 * Python rounds to the nearest multiple of 0.1 and breaks an exact tie towards the
 * even last digit. Binary floating point, where a decimal tie such as 2.25 may not be
 * an exact tie, is not modelled: here every real is exact.
 */
module PyRound {

  /** `x` is a multiple of 0.1, i.e. has at most one decimal. */
  predicate IsTenth(x: real) {
    (x * 10.0).Floor as real == x * 10.0
  }

  /** Nearest integer to `y`, ties to the even neighbour. */
  function RoundHalfEven(y: real): (n: int)
    ensures -0.5 <= n as real - y <= 0.5
    ensures (n as real - y == 0.5 || y - n as real == 0.5) ==> n % 2 == 0
  {
    var f := y.Floor;
    var d := y - f as real;
    if d < 0.5 then f
    else if d > 0.5 then f + 1
    else if f % 2 == 0 then f
    else f + 1
  }

  /** `round(x, 1)`: a multiple of 0.1 at most 0.05 away from `x`. */
  function RoundTenth(x: real): (r: real)
    ensures IsTenth(r)
    ensures -0.05 <= r - x <= 0.05
  {
    var n := RoundHalfEven(x * 10.0);
    TenthOfInt(n);
    n as real / 10.0
  }

  /** Every integer number of tenths has one decimal. */
  lemma TenthOfInt(n: int)
    ensures IsTenth(n as real / 10.0)
  {
    var r := n as real / 10.0;
    assert r * 10.0 == n as real;
    assert (n as real).Floor == n;
  }

  /** Rounding a value that already has one decimal leaves it unchanged. */
  lemma RoundTenthOfTenth(x: real)
    requires IsTenth(x)
    ensures RoundTenth(x) == x
  {
    var k := (x * 10.0).Floor;
    assert (x * 10.0).Floor == k;
    assert RoundHalfEven(x * 10.0) == k;
  }

  /** Rounding never reverses the order of two values. */
  lemma RoundTenthMonotone(x: real, y: real)
    requires x <= y
    ensures RoundTenth(x) <= RoundTenth(y)
  {
    var fx, fy := (x * 10.0).Floor, (y * 10.0).Floor;
    assert fx <= fy;
    assert RoundHalfEven(x * 10.0) <= RoundHalfEven(y * 10.0) by {
      if fx < fy {
        assert RoundHalfEven(x * 10.0) <= fx + 1;
        assert fy <= RoundHalfEven(y * 10.0);
      }
    }
  }

  /** Two values more than 0.1 apart stay strictly ordered after rounding. */
  lemma RoundTenthStrict(x: real, y: real)
    requires y - x > 0.1
    ensures RoundTenth(x) < RoundTenth(y)
  {
  }

  /** The complement to 100 of a one-decimal value has one decimal. */
  lemma TenthComplement(x: real)
    requires IsTenth(x)
    ensures IsTenth(100.0 - x)
  {
    var k := (x * 10.0).Floor;
    assert (100.0 - x) * 10.0 == (1000 - k) as real;
  }
}
