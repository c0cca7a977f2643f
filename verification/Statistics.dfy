/** The statistics the feature extractor takes over exact reals (Python's `statistics`, `max`, `min`, `sum`). */
module Statistics {

  function Sum(xs: seq<real>): real {
    if xs == [] then 0.0 else Sum(xs[..|xs| - 1]) + xs[|xs| - 1]
  }

  function Mean(xs: seq<real>): real
    requires xs != []
  {
    Sum(xs) / |xs| as real
  }

  function SquaredDeviations(xs: seq<real>, m: real): (s: real)
    ensures s >= 0.0
  {
    if xs == [] then 0.0
    else
      var d := xs[|xs| - 1] - m;
      SquaredDeviations(xs[..|xs| - 1], m) + d * d
  }

  /** Sample variance: n - 1 in the denominator. */
  function Variance(xs: seq<real>): (v: real)
    requires |xs| > 1
    ensures v >= 0.0
  {
    SquaredDeviations(xs, Mean(xs)) / (|xs| - 1) as real
  }

  function Larger(x: real, y: real): real {
    if x >= y then x else y
  }

  function Smaller(x: real, y: real): real {
    if x <= y then x else y
  }

  function Max(xs: seq<real>): real
    requires xs != []
  {
    if |xs| == 1 then xs[0] else Larger(Max(xs[..|xs| - 1]), xs[|xs| - 1])
  }

  function Min(xs: seq<real>): real
    requires xs != []
  {
    if |xs| == 1 then xs[0] else Smaller(Min(xs[..|xs| - 1]), xs[|xs| - 1])
  }

  lemma {:induction false} ExtremesAreAttained(xs: seq<real>)
    requires xs != []
    ensures Max(xs) in xs && Min(xs) in xs
    ensures forall x | x in xs :: Min(xs) <= x <= Max(xs)
  {
    if |xs| > 1 {
      assert xs == xs[..|xs| - 1] + [xs[|xs| - 1]];
      ExtremesAreAttained(xs[..|xs| - 1]);
    }
  }

  // A feature whose list is empty keeps the initial value 0.

  function MeanOrZero(xs: seq<real>): real {
    if xs == [] then 0.0 else Mean(xs)
  }

  function MaxOrZero(xs: seq<real>): real {
    if xs == [] then 0.0 else Max(xs)
  }

  function MinOrZero(xs: seq<real>): real {
    if xs == [] then 0.0 else Min(xs)
  }

  function VarianceOrZero(xs: seq<real>): real {
    if |xs| <= 1 then 0.0 else Variance(xs)
  }

  lemma {:induction false} SumSnoc(xs: seq<real>, x: real)
    ensures Sum(xs + [x]) == Sum(xs) + x
  {
    assert (xs + [x])[..|xs|] == xs;
  }

  lemma {:induction false} MaxSnoc(xs: seq<real>, x: real)
    requires xs != []
    ensures Max(xs + [x]) == Larger(Max(xs), x)
  {
    assert (xs + [x])[..|xs|] == xs;
  }

  lemma {:induction false} MinSnoc(xs: seq<real>, x: real)
    requires xs != []
    ensures Min(xs + [x]) == Smaller(Min(xs), x)
  {
    assert (xs + [x])[..|xs|] == xs;
  }

  /** k * x as one term, so that its product is not multiplied out. */
  function Scaled(k: real, x: real): real {
    k * x
  }

  lemma {:induction false} ScaledOneMore(k: real, n: real)
    ensures Scaled(k, n + 1.0) == Scaled(k, n) + k
  {
  }

  lemma {:induction false} SumBetween(xs: seq<real>, low: real, high: real)
    requires forall x | x in xs :: low <= x <= high
    ensures Scaled(low, |xs| as real) <= Sum(xs) <= Scaled(high, |xs| as real)
  {
    if xs != [] {
      var rest := xs[..|xs| - 1];
      assert forall x | x in rest :: x in xs;
      SumBetween(rest, low, high);
      assert xs[|xs| - 1] in xs;
      ScaledOneMore(low, |rest| as real);
      ScaledOneMore(high, |rest| as real);
      assert |rest| as real + 1.0 == |xs| as real;
    }
  }

  lemma {:induction false} DivideBetween(a: real, low: real, high: real, n: real)
    requires n > 0.0 && Scaled(low, n) <= a <= Scaled(high, n)
    ensures low <= a / n <= high
  {
    var q := a / n;
    assert q * n == a;
    assert (q - low) * n >= 0.0 && (high - q) * n >= 0.0;
  }

  lemma {:induction false} MeanBetweenExtremes(xs: seq<real>)
    requires xs != []
    ensures Min(xs) <= Mean(xs) <= Max(xs)
  {
    ExtremesAreAttained(xs);
    SumBetween(xs, Min(xs), Max(xs));
    DivideBetween(Sum(xs), Min(xs), Max(xs), |xs| as real);
  }

  function Squares(xs: seq<real>): real {
    if xs == [] then 0.0 else Squares(xs[..|xs| - 1]) + xs[|xs| - 1] * xs[|xs| - 1]
  }

  lemma {:induction false} Distribute(k: real, a: real, b: real)
    ensures k * (a + b) == k * a + k * b
  {
  }

  lemma {:induction false} SquareOfDifference(x: real, m: real)
    ensures (x - m) * (x - m) == x * x - (2.0 * m) * x + m * m
  {
  }

  /** The expanded sum of squared deviations, kept as one term so that its products are not multiplied out. */
  function Expansion(squares: real, sum: real, n: real, m: real): real {
    squares - (2.0 * m) * sum + n * (m * m)
  }

  lemma {:induction false} ExpandOneMore(squares: real, sum: real, n: real, x: real, m: real)
    ensures Expansion(squares + x * x, sum + x, n + 1.0, m) == Expansion(squares, sum, n, m) + (x - m) * (x - m)
  {
    SquareOfDifference(x, m);
    Distribute(2.0 * m, sum, x);
    Distribute(m * m, n, 1.0);
  }

  lemma {:induction false} ExpandLast(xs: seq<real>, m: real)
    requires xs != []
    ensures var rest, x := xs[..|xs| - 1], xs[|xs| - 1];
            Expansion(Squares(xs), Sum(xs), |xs| as real, m)
            == Expansion(Squares(rest), Sum(rest), |rest| as real, m) + (x - m) * (x - m)
  {
    var rest, x := xs[..|xs| - 1], xs[|xs| - 1];
    assert |rest| as real + 1.0 == |xs| as real;
    ExpandOneMore(Squares(rest), Sum(rest), |rest| as real, x, m);
  }

  lemma {:induction false} ExpandDeviations(xs: seq<real>, m: real)
    ensures SquaredDeviations(xs, m) == Expansion(Squares(xs), Sum(xs), |xs| as real, m)
  {
    if xs != [] {
      ExpandLast(xs, m);
      ExpandDeviations(xs[..|xs| - 1], m);
    }
  }

  lemma {:induction false} SquaresOneMore(squares: real, sum: real, x: real, top: real)
    requires squares <= Scaled(top, sum) && 0.0 <= x <= top
    ensures squares + x * x <= Scaled(top, sum + x)
  {
    Distribute(top, sum, x);
    assert x * x <= top * x;
  }

  lemma {:induction false} SquaresAtMostMaxTimesSum(xs: seq<real>, top: real)
    requires forall x | x in xs :: 0.0 <= x <= top
    ensures Squares(xs) <= Scaled(top, Sum(xs))
  {
    if xs == [] {
      assert Squares(xs) == 0.0 && Sum(xs) == 0.0;
    } else {
      var rest, x := xs[..|xs| - 1], xs[|xs| - 1];
      assert forall y | y in rest :: y in xs;
      SquaresAtMostMaxTimesSum(rest, top);
      assert x in xs;
      SquaresOneMore(Squares(rest), Sum(rest), x, top);
      assert Sum(rest) + x == Sum(xs) && Squares(rest) + x * x == Squares(xs);
    }
  }

  /** n * m * (top - m): how far n values with mean m below `top` can spread. */
  function Spread(n: real, m: real, top: real): real {
    n * m * (top - m)
  }

  lemma {:induction false} SpreadExpands(n: real, m: real, top: real)
    ensures top * (n * m) - (2.0 * m) * (n * m) + n * (m * m) == Spread(n, m, top)
  {
    var k := n * m;
    assert (2.0 * m) * k == 2.0 * (m * k);
    assert n * (m * m) == m * k;
    assert k * (top - m) == top * k - m * k;
  }

  lemma {:induction false} DivideBack(a: real, n: real)
    requires n != 0.0
    ensures a / n * n == a
  {
  }

  lemma {:induction false} BoundDeviations(squares: real, sum: real, n: real, m: real, top: real)
    requires squares <= Scaled(top, sum) && sum == n * m
    ensures Expansion(squares, sum, n, m) <= Spread(n, m, top)
  {
    SpreadExpands(n, m, top);
  }

  lemma {:induction false} DeviationsAtMostMeanTimesHeadroom(xs: seq<real>, n: real, m: real, top: real)
    requires xs != [] && forall x | x in xs :: 0.0 <= x <= top
    requires n == |xs| as real && m == Mean(xs)
    ensures SquaredDeviations(xs, m) <= Spread(n, m, top)
  {
    SquaresAtMostMaxTimesSum(xs, top);
    DivideBack(Sum(xs), n);
    BoundDeviations(Squares(xs), Sum(xs), n, m, top);
    ExpandDeviations(xs, m);
  }

  lemma {:induction false} DivideMonotone(a: real, b: real, n: real)
    requires a <= b && n > 0.0
    ensures a / n <= b / n
  {
  }

  /**
    The Bhatia-Davis bound for a sample: non-negative data with mean m and maximum M
    has sample variance at most n / (n - 1) * m * (M - m).
    */
  lemma {:induction false} VarianceAtMostMeanTimesHeadroom(xs: seq<real>)
    requires |xs| > 1 && forall x | x in xs :: x >= 0.0
    ensures Variance(xs) <= Spread(|xs| as real, Mean(xs), Max(xs)) / (|xs| - 1) as real
  {
    var m, top := Mean(xs), Max(xs);
    ExtremesAreAttained(xs);
    DeviationsAtMostMeanTimesHeadroom(xs, |xs| as real, m, top);
    DivideMonotone(SquaredDeviations(xs, m), Spread(|xs| as real, m, top), (|xs| - 1) as real);
  }
}
