/** The statistics of `SalesAnalyst`: float division, the sample standard deviation of
    `standard_deviation` (lib/sales_analyst.rb:71-77) and the `mean ± k·sd` thresholds. */
module Statistics {

  /** A Ruby Float on exact values: `Finite(v)`, or `Undefined` for the NaN or ±Infinity a
      float division by zero yields. The reports test `>` only against an upper threshold and
      `<` only against a lower one, where `Undefined` is NaN, +Infinity or -Infinity in the
      direction that makes the test false; so a test against `Undefined` is false. */
  datatype Measure = Finite(value: real) | Undefined

  /** `num.to_f / den`: a zero denominator gives NaN or Infinity instead of raising. */
  function Divide(num: real, den: int): (r: Measure)
    ensures r.Finite? <==> den != 0
    ensures r.Finite? ==> r.value * den as real == num
  {
    if den == 0 then Undefined else Finite(num / den as real)
  }

  /** Float addition: NaN and Infinity absorb every finite operand. */
  function Plus(a: Measure, b: Measure): Measure
  {
    if a.Finite? && b.Finite? then Finite(a.value + b.value) else Undefined
  }

  /** `mean + sd * k`, the upper threshold of a report. */
  function UpperThreshold(mean: Measure, sd: Measure, k: real): Measure
  {
    if mean.Finite? && sd.Finite? then Finite(mean.value + sd.value * k) else Undefined
  }

  /** `mean - sd * k`, the lower threshold of a report. */
  function LowerThreshold(mean: Measure, sd: Measure, k: real): Measure
  {
    if mean.Finite? && sd.Finite? then Finite(mean.value - sd.value * k) else Undefined
  }

  /** `x > t` for a Float `t`. */
  predicate Exceeds(x: real, t: Measure)
  {
    t.Finite? && x > t.value
  }

  /** `x < t` for a Float `t`. */
  predicate FallsBelow(x: real, t: Measure)
  {
    t.Finite? && x < t.value
  }

  lemma ProductPositive(x: real, y: real)
    requires (x > 0.0 && y > 0.0) || (x < 0.0 && y < 0.0)
    ensures x * y > 0.0
  {
  }

  /** Squaring is strictly increasing on non-negative reals. */
  lemma SquareIncreasing(a: real, b: real)
    requires 0.0 <= a < b
    ensures a * a < b * b
  {
    ProductPositive(b - a, b + a);
    assert (b - a) * (b + a) == b * b - a * a;
  }

  /** `x * y`, with its sign stated so that callers reason linearly. */
  function Product(x: real, y: real): (r: real)
    ensures ((x > 0.0 && y > 0.0) || (x < 0.0 && y < 0.0)) ==> r > 0.0
    ensures ((x >= 0.0 && y >= 0.0) || (x <= 0.0 && y <= 0.0)) ==> r >= 0.0
  {
    if (x > 0.0 && y > 0.0) || (x < 0.0 && y < 0.0) then ProductPositive(x, y); x * y else x * y
  }

  /** `d.abs ** 2`: never negative, and positive unless `d` is zero. */
  function Square(d: real): (r: real)
    ensures r >= 0.0
    ensures d != 0.0 ==> r > 0.0
  {
    Product(d, d)
  }

  /** The sum of `(x - avg).abs ** 2` over `xs`, the `reduce` in `standard_deviation`. */
  function SquaredDeviations(xs: seq<int>, avg: real): real
  {
    if xs == [] then 0.0
    else Square(xs[0] as real - avg) + SquaredDeviations(xs[1..], avg)
  }

  lemma {:induction false} SquaredDeviationsNonNegative(xs: seq<int>, avg: real)
    ensures SquaredDeviations(xs, avg) >= 0.0
  {
    if xs != [] {
      SquaredDeviationsNonNegative(xs[1..], avg);
    }
  }

  /** One element away from the average makes the deviation sum positive. */
  lemma {:induction false} SquaredDeviationsPositive(xs: seq<int>, avg: real, i: int)
    requires 0 <= i < |xs| && xs[i] as real != avg
    ensures SquaredDeviations(xs, avg) > 0.0
  {
    SquaredDeviationsNonNegative(xs[1..], avg);
    if i > 0 {
      SquaredDeviationsPositive(xs[1..], avg, i - 1);
    }
  }

  /** Every element at the average makes the deviation sum zero. */
  lemma {:induction false} SquaredDeviationsZero(xs: seq<int>, avg: real)
    requires forall i :: 0 <= i < |xs| ==> xs[i] as real == avg
    ensures SquaredDeviations(xs, avg) == 0.0
  {
    if xs != [] {
      assert xs[0] as real - avg == 0.0;
      SquaredDeviationsZero(xs[1..], avg);
    }
  }

  /** The variance inside `standard_deviation(elements, average)`: the deviation sum over
      `count - 1`. With no elements Ruby divides Integer 0 by -1 and gets 0; with one element
      it divides a Float by 0 and gets NaN or Infinity. */
  function Variance(xs: seq<int>, avg: Measure): (r: Measure)
    ensures |xs| == 0 ==> r == Finite(0.0)
    ensures |xs| == 1 ==> r == Undefined
    ensures |xs| >= 2 ==> (r.Finite? <==> avg.Finite?)
    ensures r.Finite? ==> r.value >= 0.0
    ensures r.Finite? && |xs| >= 2 ==> r.value * (|xs| - 1) as real == SquaredDeviations(xs, avg.value)
  {
    if |xs| == 0 then Finite(0.0)
    else if |xs| == 1 || avg.Undefined? then Undefined
    else
      SquaredDeviationsNonNegative(xs, avg.value);
      Finite(SquaredDeviations(xs, avg.value) / (|xs| - 1) as real)
  }

  /** `standard_deviation(elements, average)`: `sqrt` stands for `Math.sqrt`; the rounding
      to two decimals is not modelled. No elements give the root of 0, one element gives NaN
      or Infinity, and from two elements on it is the root of the sum of squared deviations
      over `count - 1`, finite exactly when the average is. */
  function StandardDeviation(xs: seq<int>, avg: Measure, sqrt: real -> real): (r: Measure)
    ensures |xs| == 0 ==> r == Finite(sqrt(0.0))
    ensures |xs| == 1 ==> r == Undefined
    ensures |xs| >= 2 ==> (r.Finite? <==> avg.Finite?)
    ensures |xs| >= 2 && avg.Finite? ==> r == Finite(sqrt(SquaredDeviations(xs, avg.value) / (|xs| - 1) as real))
  {
    match Variance(xs, avg)
    case Finite(v) => Finite(sqrt(v))
    case Undefined => Undefined
  }

  /** With at least two elements and a finite average, the sample variance is zero exactly
      when every element equals the average. */
  lemma VarianceZeroIffConstant(xs: seq<int>, avg: real)
    requires |xs| >= 2
    ensures Variance(xs, Finite(avg)) == Finite(0.0) <==> forall i :: 0 <= i < |xs| ==> xs[i] as real == avg
  {
    if forall i :: 0 <= i < |xs| ==> xs[i] as real == avg {
      SquaredDeviationsZero(xs, avg);
    } else {
      var i :| 0 <= i < |xs| && xs[i] as real != avg;
      SquaredDeviationsPositive(xs, avg, i);
    }
  }

  /** With a genuine square root, exceeding `mean + k·sd` is a statement about squares:
      the threshold test needs no square root at all. */
  lemma ExceedsBySquares(x: real, mean: real, k: real, sd: real, variance: real)
    requires k >= 0.0 && sd >= 0.0 && sd * sd == variance
    ensures x > mean + sd * k <==> (x > mean && (x - mean) * (x - mean) > k * k * variance)
  {
    var d := x - mean;
    var t := sd * k;
    if sd > 0.0 && k > 0.0 { ProductPositive(sd, k); }
    assert t >= 0.0;
    assert k * k * variance == t * t;
    if d > t {
      SquareIncreasing(t, d);
    } else if d > 0.0 && d != t {
      SquareIncreasing(d, t);
    }
  }

  /** A value cannot be both above `mean + k·sd` and below `mean - k·sd` when sd is not
      negative, so a top report and a bottom report with the same k never share an entity. */
  lemma TopAndBottomDisjoint(x: real, mean: Measure, sd: Measure, k: real)
    requires k >= 0.0
    requires sd.Finite? ==> sd.value >= 0.0
    ensures !(Exceeds(x, UpperThreshold(mean, sd, k)) && FallsBelow(x, LowerThreshold(mean, sd, k)))
  {
    if mean.Finite? && sd.Finite? {
      assert sd.value * k >= 0.0;
    }
  }

  /** What the model needs of `Math.sqrt`: it maps non-negative values to non-negative ones. */
  ghost predicate NonNegativeRoot(sqrt: real -> real)
  {
    forall v :: v >= 0.0 ==> sqrt(v) >= 0.0
  }

  /** `Math.sqrt` on exact values: a non-negative root whose square is its argument. */
  ghost predicate GenuineRoot(sqrt: real -> real)
  {
    forall v :: v >= 0.0 ==> sqrt(v) >= 0.0 && sqrt(v) * sqrt(v) == v
  }

  /** With such a root a finite standard deviation is never negative. */
  lemma StandardDeviationNonNegative(xs: seq<int>, avg: Measure, sqrt: real -> real)
    requires NonNegativeRoot(sqrt)
    ensures StandardDeviation(xs, avg, sqrt).Finite? ==> StandardDeviation(xs, avg, sqrt).value >= 0.0
  {
  }
}
