/** std::round(v * 10000) / 10000 over the reals. */
module Rounding {

  /** Round half away from zero. */
  function Round(x: real): int {
    if x >= 0.0 then (x + 0.5).Floor else -((0.5 - x).Floor)
  }

  function Round4(v: real): real {
    Round(v * 10000.0) as real / 10000.0
  }

  const HALF_UNIT: real := 0.00005

  lemma Round4Near(v: real)
    ensures v - HALF_UNIT <= Round4(v) <= v + HALF_UNIT
  {
    var x := v * 10000.0;
    assert x - 0.5 <= Round(x) as real <= x + 0.5;
  }

  /** The result is a whole number of ten-thousandths, the nearest one, and of two the one away from zero. */
  lemma Round4Nearest(v: real) returns (n: int)
    ensures Round4(v) == n as real / 10000.0 && v * 10000.0 - 0.5 <= n as real <= v * 10000.0 + 0.5
    ensures if v >= 0.0 then v * 10000.0 - 0.5 < n as real else n as real < v * 10000.0 + 0.5
  {
    n := Round(v * 10000.0);
  }

  lemma Round4Monotone(v: real, w: real)
    requires v <= w
    ensures Round4(v) <= Round4(w)
  {
    var x, y := v * 10000.0, w * 10000.0;
    assert Round(x) <= Round(y) by {
      if x < 0.0 <= y {
        assert Round(x) <= 0 <= Round(y);
      }
    }
  }

  function Min(x: real, y: real): real {
    if x < y then x else y
  }

  function Max(x: real, y: real): real {
    if x < y then y else x
  }

  function Abs(x: real): real {
    if x < 0.0 then -x else x
  }
}
