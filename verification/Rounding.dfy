/** Python's `round(x, digits)` on idealised numbers: to the nearest multiple, ties to the even one. */
module Rounding {

  /** `round(x)`. */
  function RoundInt(x: real): int {
    var f := x.Floor;
    var d := x - f as real;
    if d < 0.5 then f else if d > 0.5 then f + 1 else if f % 2 == 0 then f else f + 1
  }

  function Round2(x: real): real {
    RoundInt(x * 100.0) as real / 100.0
  }

  function Round3(x: real): real {
    RoundInt(x * 1000.0) as real / 1000.0
  }

  function Round6(x: real): real {
    RoundInt(x * 1000000.0) as real / 1000000.0
  }

  lemma RoundIntMonotone(x: real, y: real)
    requires x <= y
    ensures RoundInt(x) <= RoundInt(y)
  {
    assert x.Floor <= y.Floor;
  }

  lemma RoundIntNear(x: real)
    ensures -0.5 <= RoundInt(x) as real - x <= 0.5
  {
  }

  /** Rounding moves a number by at most half of the last digit and keeps the order of numbers. */
  lemma Round2Near(x: real)
    ensures -0.005 <= Round2(x) - x <= 0.005
  {
    RoundIntNear(x * 100.0);
    hide RoundInt;
  }

  lemma Round3Near(x: real)
    ensures -0.0005 <= Round3(x) - x <= 0.0005
    ensures x >= 0.0 ==> Round3(x) >= 0.0
  {
    RoundIntNear(x * 1000.0);
    RoundIntMonotone(0.0, if x >= 0.0 then x * 1000.0 else 0.0);
    assert RoundInt(0.0) == 0;
    hide RoundInt;
  }

  lemma Round6Near(x: real)
    ensures -0.0000005 <= Round6(x) - x <= 0.0000005
  {
    RoundIntNear(x * 1000000.0);
    hide RoundInt;
  }

  lemma Round2Monotone(x: real, y: real)
    requires x <= y
    ensures Round2(x) <= Round2(y)
  {
    RoundIntMonotone(x * 100.0, y * 100.0);
    hide RoundInt;
  }

  lemma Round3Monotone(x: real, y: real)
    requires x <= y
    ensures Round3(x) <= Round3(y)
  {
    RoundIntMonotone(x * 1000.0, y * 1000.0);
    hide RoundInt;
  }

  /** Whole hundredths stay. */
  lemma Round2Exact(n: int)
    ensures Round2(n as real / 100.0) == n as real / 100.0
  {
    assert n as real / 100.0 * 100.0 == n as real;
    assert RoundInt(n as real) == n;
  }
}
