/** internal/capacity/analyzer.go, calculateDegradationRate: the latency knee. */
module Degradation {
  import opened CapacityModel

  function Slope(curve: seq<Point>, k: nat): real
    requires k + 1 < |curve|
  {
    var step := curve[k + 1].rate - curve[k].rate;
    if step <= 0 then 0.0 else (curve[k + 1].latency - curve[k].latency) / step as real
  }

  /** The slope after point k is more than half as steep again as the one before, or turns upwards. */
  predicate IsKnee(curve: seq<Point>, k: nat)
    requires 1 <= k && k + 1 < |curve|
  {
    var before, after := Slope(curve, k - 1), Slope(curve, k);
    if before > 0.0 then (after - before) / before > 0.5 else after > 0.0
  }

  ghost predicate NoKneeBefore(curve: seq<Point>, n: nat) {
    forall k: nat :: 1 <= k < n && k + 1 < |curve| ==> !IsKnee(curve, k)
  }

  /** The answer is the rate of the first knee, or 0 when there is none. */
  ghost predicate IsFirstKneeRate(curve: seq<Point>, rate: int) {
    || (rate == 0 && NoKneeBefore(curve, |curve|))
    || exists k: nat :: 1 <= k && k + 1 < |curve| && IsKnee(curve, k) && NoKneeBefore(curve, k) && rate == curve[k].rate
  }

  method CalculateDegradationRate(curve: seq<Point>) returns (rate: int)
    ensures IsFirstKneeRate(curve, rate)
  {
    if |curve| < 3 {
      return 0;
    }
    var slopes: seq<real> := [];
    for i := 1 to |curve|
      invariant |slopes| == i - 1
      invariant forall k :: 0 <= k < i - 1 ==> slopes[k] == Slope(curve, k)
    {
      var deltaRate := curve[i].rate - curve[i - 1].rate;
      if deltaRate <= 0 {
        slopes := slopes + [0.0];
      } else {
        var deltaLatency := curve[i].latency - curve[i - 1].latency;
        slopes := slopes + [deltaLatency / deltaRate as real];
      }
    }
    for k := 1 to |slopes|
      invariant NoKneeBefore(curve, k)
    {
      var prevSlope, currSlope := slopes[k - 1], slopes[k];
      if prevSlope > 0.0 {
        var growthRatio := (currSlope - prevSlope) / prevSlope;
        if growthRatio > 0.50 {
          assert IsKnee(curve, k);
          return curve[k].rate;
        }
      } else if prevSlope <= 0.0 && currSlope > 0.0 {
        assert IsKnee(curve, k);
        return curve[k].rate;
      }
    }
    return 0;
  }

  lemma FirstKneeUnique(curve: seq<Point>, a: int, b: int)
    requires forall k :: 0 <= k < |curve| ==> curve[k].rate > 0
    requires IsFirstKneeRate(curve, a) && IsFirstKneeRate(curve, b)
    ensures a == b
  {
    if a != 0 && b != 0 {
      var i: nat :| 1 <= i && i + 1 < |curve| && IsKnee(curve, i) && NoKneeBefore(curve, i) && a == curve[i].rate;
      var j: nat :| 1 <= j && j + 1 < |curve| && IsKnee(curve, j) && NoKneeBefore(curve, j) && b == curve[j].rate;
      assert i == j;
    }
  }

  /** A reported rate is a tested one, and neither the lowest nor the highest. */
  lemma KneeIsInterior(curve: seq<Point>, rate: int)
    requires Ascending(curve) && IsFirstKneeRate(curve, rate) && rate != 0
    ensures |curve| >= 3 && curve[0].rate < rate < curve[|curve| - 1].rate
    ensures exists k :: 0 < k < |curve| - 1 && curve[k].rate == rate
  {
  }

  // ---------------------------------------------------------------- what "no knee" rules out

  function Positive(x: real): real {
    if x > 0.0 then x else 0.0
  }

  /** 1.5 to the k. */
  function Growth(k: nat): (g: real)
    ensures g >= 1.0
  {
    if k == 0 then 1.0 else 1.5 * Growth(k - 1)
  }

  lemma GentleStep(curve: seq<Point>, k: nat)
    requires 1 <= k && k + 1 < |curve| && !IsKnee(curve, k)
    ensures Slope(curve, k) <= 1.5 * Positive(Slope(curve, k - 1))
  {
    var before, after := Slope(curve, k - 1), Slope(curve, k);
    if before > 0.0 {
      var ratio := (after - before) / before;
      assert ratio * before == after - before;
      assert ratio <= 0.5;
      assert (0.5 - ratio) * before >= 0.0;
    }
  }

  /** Slope k is at most 1.5 to the k times the first slope, or not positive. */
  ghost predicate Geometric(curve: seq<Point>, k: nat)
    requires k + 1 < |curve|
  {
    Slope(curve, k) <= Positive(Slope(curve, 0)) * Growth(k)
  }

  lemma {:induction false} SlopesBounded(curve: seq<Point>, k: nat)
    requires k + 1 < |curve| && NoKneeBefore(curve, |curve|)
    ensures Geometric(curve, k)
  {
    if k > 0 {
      SlopesBounded(curve, k - 1);
      GentleStep(curve, k);
      var first, g := Positive(Slope(curve, 0)), Growth(k - 1);
      assert first * g >= 0.0;
      assert 1.5 * (first * g) == first * Growth(k);
    }
  }

  /** Once latency stops rising it never rises again. */
  lemma {:induction false} StaysFlat(curve: seq<Point>, j: nat, k: nat)
    requires j <= k && k + 1 < |curve| && NoKneeBefore(curve, |curve|)
    requires Slope(curve, j) <= 0.0
    ensures Slope(curve, k) <= 0.0
    decreases k
  {
    if j < k {
      StaysFlat(curve, j, k - 1);
      GentleStep(curve, k);
    }
  }

  /** The load span from the first to the n-th point, each interval weighted by its growth factor. */
  function WeightedSpan(curve: seq<Point>, n: nat): real
    requires n < |curve|
  {
    if n == 0 then 0.0
    else WeightedSpan(curve, n - 1) + Growth(n - 1) * (curve[n].rate - curve[n - 1].rate) as real
  }

  lemma RiseBounded(rise: real, step: real, slope: real, first: real, g: real)
    requires step > 0.0 && slope == rise / step && slope <= first * g
    ensures rise <= first * (g * step)
  {
    assert slope * step == rise;
    assert (first * g - slope) * step >= 0.0;
    assert (first * g) * step == first * (g * step);
  }

  lemma Distribute(a: real, b: real, c: real)
    ensures a * b + a * c == a * (b + c)
  {
  }

  /** Latency grows over one interval by at most its weighted span. */
  lemma IntervalBounded(curve: seq<Point>, n: nat)
    requires 1 <= n < |curve| && Ascending(curve) && NoKneeBefore(curve, |curve|)
    ensures curve[n].latency - curve[n - 1].latency
         <= Positive(Slope(curve, 0)) * (Growth(n - 1) * (curve[n].rate - curve[n - 1].rate) as real)
  {
    hide IsKnee, NoKneeBefore, Growth, Positive;
    SlopesBounded(curve, n - 1);
    RiseBounded(curve[n].latency - curve[n - 1].latency, (curve[n].rate - curve[n - 1].rate) as real,
      Slope(curve, n - 1),
                Positive(Slope(curve, 0)), Growth(n - 1));
  }

  /** Total latency growth over the first n intervals has the matching geometric bound. */
  lemma {:induction false} LatencyGrowthBounded(curve: seq<Point>, n: nat)
    requires n < |curve| && Ascending(curve) && NoKneeBefore(curve, |curve|) && |curve| >= 2
    ensures curve[n].latency - curve[0].latency <= Positive(Slope(curve, 0)) * WeightedSpan(curve, n)
  {
    hide Slope, IsKnee, NoKneeBefore, Growth, Positive;
    if n > 0 {
      LatencyGrowthBounded(curve, n - 1);
      IntervalBounded(curve, n);
      Distribute(Positive(Slope(curve, 0)), WeightedSpan(curve, n - 1),
        Growth(n - 1) * (curve[n].rate - curve[n - 1].rate) as real);
    }
  }

  /** The three consequences of an answer of 0 on a curve long enough to have a knee. */
  lemma NoDegradationMeansGentle(curve: seq<Point>)
    requires Ascending(curve) && |curve| >= 3 && (forall k :: 0 <= k < |curve| ==> curve[k].rate > 0)
    requires IsFirstKneeRate(curve, 0)
    ensures forall k: nat :: k + 1 < |curve| ==> Geometric(curve, k)
    ensures forall j: nat, k: nat :: j <= k && k + 1 < |curve| && Slope(curve, j) <= 0.0 ==> Slope(curve, k) <= 0.0
    ensures curve[|curve| - 1].latency - curve[0].latency <= Positive(Slope(curve, 0)) * WeightedSpan(curve,
        |curve| - 1)
  {
    hide Geometric, Slope, IsKnee;
    forall k: nat | k + 1 < |curve| ensures Geometric(curve, k) {
      SlopesBounded(curve, k);
    }
    forall j: nat, k: nat | j <= k && k + 1 < |curve| && Slope(curve, j) <= 0.0 ensures Slope(curve, k) <= 0.0 {
      StaysFlat(curve, j, k);
    }
    LatencyGrowthBounded(curve, |curve| - 1);
  }
}
