/** Python's `int(round(x))`: the nearest integer, ties going to the even neighbour. */
module Rounding {

  function RoundHalfEven(x: real): (r: int)
    ensures -0.5 <= r as real - x <= 0.5
    ensures r as real - x == 0.5 || r as real - x == -0.5 ==> r % 2 == 0
  {
    var low := x.Floor;
    var rest := x - low as real;
    if rest < 0.5 then low
    else if rest > 0.5 then low + 1
    else if low % 2 == 0 then low
    else low + 1
  }

  /** The two promises of RoundHalfEven leave no freedom. */
  lemma {:induction false} RoundIsDetermined(x: real, r: int)
    requires -0.5 <= r as real - x <= 0.5
    requires r as real - x == 0.5 || r as real - x == -0.5 ==> r % 2 == 0
    ensures r == RoundHalfEven(x)
  {
    var s := RoundHalfEven(x);
    assert -1.0 <= (r - s) as real <= 1.0;
  }

  lemma {:induction false} RoundIsMonotone(x: real, y: real)
    requires x <= y
    ensures RoundHalfEven(x) <= RoundHalfEven(y)
  {
    assert (RoundHalfEven(x) - RoundHalfEven(y)) as real <= 1.0;
  }

  lemma {:induction false} RoundOfInteger(n: int)
    ensures RoundHalfEven(n as real) == n
  {
    RoundIsDetermined(n as real, n);
  }
}
