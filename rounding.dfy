/**
 * Decimal rounding as pandas' `Series.round(n)` and Python's `round(x, n)`
 * perform it: to the nearest multiple of 10^-n, ties to the even neighbour.
 * The engine rounds to 0, 1 or 2 places only. The model works on exact
 * reals, so the representation error of binary floating point is not part
 * of it.
 */
module Rounding {

  /** The numbers of decimal places the engine rounds to. */
  type Places = p: nat | p <= 2

  /** Steps per unit when rounding to `places` decimals: 10^places. */
  function Scale(places: Places): (s: real)
    ensures s >= 1.0
  {
    if places == 0 then 1.0 else if places == 1 then 10.0 else 100.0
  }

  /** The integer nearest to y; a tie goes to the even integer. */
  function NearestEven(y: real): (k: int)
    ensures y - 0.5 <= k as real <= y + 0.5
    ensures (k as real - y == 0.5 || y - k as real == 0.5) ==> k % 2 == 0
  {
    var n := y.Floor;
    var f := y - n as real;
    if f > 0.5 then n + 1
    else if f < 0.5 then n
    else if n % 2 == 0 then n
    else n + 1
  }

  /**
   * `round(x, places)` with ties to even: a value with `places` decimals,
   * at most half a step from x.
   */
  function Round(x: real, places: Places): (r: real)
    ensures x - 0.5 / Scale(places) <= r <= x + 0.5 / Scale(places)
    ensures OnGrid(r, places)
  {
    var k := NearestEven(x * Scale(places));
    assert k as real / Scale(places) * Scale(places) == k as real;
    k as real / Scale(places)
  }

  /** x has at most `places` decimal places. */
  predicate OnGrid(x: real, places: Places) {
    var y := x * Scale(places);
    y.Floor as real == y
  }

  /** Rounding never leaves an interval whose ends are whole numbers. */
  lemma {:induction false} RoundWithin(x: real, places: Places, lo: int, hi: int)
    requires lo as real <= x <= hi as real
    ensures lo as real <= Round(x, places) <= hi as real
  {
    var k := NearestEven(x * Scale(places));
    if places == 0 {
      assert lo <= k <= hi;
    } else if places == 1 {
      assert lo * 10 <= k <= hi * 10;
    } else {
      assert lo * 100 <= k <= hi * 100;
    }
  }

  /** A value that already has `places` decimals is left as it is. */
  lemma {:induction false} RoundOnGrid(x: real, places: Places)
    requires OnGrid(x, places)
    ensures Round(x, places) == x
  {
    var y := x * Scale(places);
    assert NearestEven(y) == y.Floor;
  }

  /** Every whole number lies on every grid. */
  lemma {:induction false} IntegerOnGrid(n: int, places: Places)
    ensures OnGrid(n as real, places)
  {
    if places == 0 {
      assert n as real * Scale(places) == n as real;
    } else if places == 1 {
      assert n as real * Scale(places) == (10 * n) as real;
    } else {
      assert n as real * Scale(places) == (100 * n) as real;
    }
  }

  lemma FloorOfWhole(k: int)
    ensures (k as real).Floor == k
  {
  }

  /** The distance from a whole number to a grid value is again a grid value. */
  lemma {:induction false} ComplementOnGrid(n: int, x: real, places: Places)
    requires OnGrid(x, places)
    ensures OnGrid(n as real - x, places)
  {
    var s := Scale(places);
    var m := (x * s).Floor;
    var N := if places == 0 then n else if places == 1 then 10 * n else 100 * n;
    assert x * s == m as real;
    assert n as real * s == N as real;
    assert (n as real - x) * s == n as real * s - x * s;
    FloorOfWhole(N - m);
    var c := (n as real - x) * s;
    assert c == (N - m) as real;
  }
}
