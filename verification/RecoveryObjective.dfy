/** internal/capacity/metrics.go: recovery time objective against a pre-test baseline. */
module RecoveryObjective {
  import opened CapacityModel
  import opened Rounding
  import opened Sorting
  import opened Recovery

  const DEFAULT_TOLERANCE: real := 10.0

  datatype RtoError = EmptyObservations | NoStressPhase | NoLoadTermination | NoPreTestBaseline | InvalidBaseline

  datatype Result<T> = Ok(value: T) | Err(error: RtoError)

  datatype RtoResult = RtoResult(baselineP95Ms: real, thresholdP95Ms: real, tolerancePercent: real,
                                 terminationTime: int, recoveryNanos: int, recoverySeconds: int, recovered: bool)

  function CalculateThreshold(baseline: real, tolerancePercent: real): real {
    Round(baseline * (1.0 + tolerancePercent / 100.0) * 1000000000.0) as real / 1000000000.0
  }

  function EffectiveTolerance(tolerance: real): real {
    if tolerance <= 0.0 then DEFAULT_TOLERANCE else tolerance
  }

  function Latency(): Observation -> real {
    (o: Observation) => o.p95LatencyMs
  }

  ghost predicate IsMeanLatency(pre: seq<Observation>, mean: real) {
    pre != [] && mean * |pre| as real == Total(pre, Latency())
  }

  method ExtractPreTestBaseline(pre: seq<Observation>) returns (r: Result<real>)
    ensures pre == [] ==> r == Err(NoPreTestBaseline)
    ensures r.Ok? ==> r.value > 0.0 && IsMeanLatency(pre, r.value)
    ensures pre != [] ==> (r.Ok? <==> Total(pre, Latency()) > 0.0) && (r.Err? ==> r.error == InvalidBaseline)
  {
    if |pre| == 0 {
      return Err(NoPreTestBaseline);
    }
    var sum := 0.0;
    for i := 0 to |pre|
      invariant sum == Total(pre[..i], Latency())
    {
      assert pre[..i + 1][..i] == pre[..i];
      sum := sum + pre[i].p95LatencyMs;
    }
    assert pre[..|pre|] == pre;
    var n := |pre| as real;
    var avg := sum / n;
    assert avg * n == sum;
    assert avg > 0.0 ==> avg * n > 0.0;
    assert avg < 0.0 ==> avg * n < 0.0;
    if avg <= 0.0 {
      return Err(InvalidBaseline);
    }
    return Ok(avg);
  }

  function AtMost(threshold: real): Observation -> bool {
    (o: Observation) => o.p95LatencyMs <= threshold
  }

  /** The outcome on observations already in time order; validation failures come first. */
  function RtoOn(ord: seq<Observation>, baseline: real, tolerance: real): Result<RtoResult> {
    var tol := EffectiveTolerance(tolerance);
    var threshold := CalculateThreshold(baseline, tol);
    var post := PostStress(ord);
    if ord == [] then Err(EmptyObservations)
    else if baseline <= 0.0 then Err(InvalidBaseline)
    else if !Stressed(ord) then Err(NoStressPhase)
    else if post == [] then Err(NoLoadTermination)
    else
      var nanos := RecoveryNanos(post, AtMost(threshold));
      var recovered := exists o :: o in post && o.p95LatencyMs <= threshold;
      Ok(RtoResult(baseline, threshold, tol, post[0].timestamp, nanos, Seconds(nanos), recovered))
  }

  /** The scan of the post-stress phase. */
  method MeasureRecovery(post: seq<Observation>, threshold: real) returns (recovered: bool, nanos: int)
    requires post != [] && Chronological(post)
    ensures nanos == RecoveryNanos(post, AtMost(threshold))
    ensures recovered <==> exists o :: o in post && o.p95LatencyMs <= threshold
  {
    recovered, nanos := false, 0;
    var terminationTime := post[0].timestamp;
    ghost var first := FirstCalm(post, AtMost(threshold));
    for i := 0 to |post|
      invariant !recovered && nanos == 0 && i <= first
    {
      if post[i].p95LatencyMs <= threshold {
        assert AtMost(threshold)(post[i]) && first == i;
        var diff := post[i].timestamp - terminationTime;
        if diff > 0 {
          nanos := diff;
        }
        assert post[i] in post;
        return true, nanos;
      }
      assert !AtMost(threshold)(post[i]);
    }
    assert forall k :: 0 <= k < |post| ==> !AtMost(threshold)(post[k]);
    var diff := post[|post| - 1].timestamp - terminationTime;
    if diff > 0 {
      nanos := diff;
    }
  }

  method CalculateRtoWithBaseline(tolerance: real, observations: seq<Observation>, baseline: real,
                                  sorted: seq<Observation> -> seq<Observation>)
    returns (r: Result<RtoResult>)
    requires SortsByTime(sorted)
    ensures r == RtoOn(sorted(observations), baseline, tolerance)
  {
    var ord := sorted(observations);
    TimelineIsChronological(observations, ord);
    SameElements(observations, ord);
    if |observations| == 0 {
      assert RtoOn(ord, baseline, tolerance) == Err(EmptyObservations);
      return Err(EmptyObservations);
    }
    if baseline <= 0.0 {
      assert RtoOn(ord, baseline, tolerance) == Err(InvalidBaseline);
      return Err(InvalidBaseline);
    }
    var tol := if tolerance <= 0.0 then DEFAULT_TOLERANCE else tolerance;
    var threshold := CalculateThreshold(baseline, tol);
    var foundStress, post := SplitPostStress(ord);
    if !foundStress {
      assert RtoOn(ord, baseline, tolerance) == Err(NoStressPhase);
      return Err(NoStressPhase);
    }
    if |post| == 0 {
      assert RtoOn(ord, baseline, tolerance) == Err(NoLoadTermination);
      return Err(NoLoadTermination);
    }
    PostStressOrdered(ord);
    var recovered, nanos := MeasureRecovery(post, threshold);
    r := Ok(RtoResult(baseline, threshold, tol, post[0].timestamp, nanos, Seconds(nanos), recovered));
    assert r == RtoOn(ord, baseline, tolerance);
  }

  /** The idle observations before the first one under load. */
  function PreStress(obs: seq<Observation>): seq<Observation> {
    if obs == [] || obs[0].loadRate > 0.0 then []
    else (if obs[0].loadRate == 0.0 then [obs[0]] else []) + PreStress(obs[1..])
  }

  method SplitPreStress(ord: seq<Observation>) returns (pre: seq<Observation>)
    ensures pre == PreStress(ord)
  {
    pre := [];
    var i := 0;
    while i < |ord| && !(ord[i].loadRate > 0.0)
      invariant i <= |ord|
      invariant pre + PreStress(ord[i..]) == PreStress(ord)
    {
      if ord[i].loadRate == 0.0 {
        pre := pre + [ord[i]];
      }
      assert ord[i..][1..] == ord[i + 1..];
      i := i + 1;
    }
  }

  /** CalculateRTO: the baseline is the mean of the pre-stress phase of the same timeline the scan reads. */
  method CalculateRto(tolerance: real, observations: seq<Observation>, sorted: seq<Observation> -> seq<Observation>)
    returns (r: Result<RtoResult>)
    requires SortsByTime(sorted)
    ensures observations == [] ==> r == Err(EmptyObservations)
    ensures observations != [] ==>
      var ord := sorted(observations);
      var pre := PreStress(ord);
      if pre == [] then r == Err(NoPreTestBaseline)
      else if Total(pre, Latency()) <= 0.0 then r == Err(InvalidBaseline)
      else exists mean :: IsMeanLatency(pre, mean) && r == RtoOn(ord, mean, tolerance)
  {
    hide RtoOn, IsTimeline, Total, PreStress;
    if |observations| == 0 {
      return Err(EmptyObservations);
    }
    var ord := sorted(observations);
    var pre := SplitPreStress(ord);
    var baseline := ExtractPreTestBaseline(pre);
    if baseline.Err? {
      return Err(baseline.error);
    }
    r := CalculateRtoWithBaseline(tolerance, observations, baseline.value, sorted);
  }

  // ---------------------------------------------------------------- agreement with the analyzer

  /** The policy whose only limit is a P95 threshold. */
  function LatencyOnly(threshold: real): SafetyPolicy {
    SafetyPolicy(threshold, 0.0, 0.0)
  }

  lemma {:induction false} SameFirstCalm(post: seq<Observation>, f: Observation -> bool, g: Observation -> bool)
    requires forall o :: f(o) == g(o)
    ensures FirstCalm(post, f) == FirstCalm(post, g)
  {
  }

  /** With a positive threshold the two calculators read the same timeline the same way. */
  lemma CalculatorsAgreeOn(ord: seq<Observation>, baseline: real, tolerance: real)
    requires Chronological(ord) && baseline > 0.0 && PostStress(ord) != []
    requires CalculateThreshold(baseline, EffectiveTolerance(tolerance)) > 0.0
    ensures var threshold := CalculateThreshold(baseline, EffectiveTolerance(tolerance));
      && RtoOn(ord, baseline, tolerance).Ok?
      && RtoOn(ord, baseline, tolerance).value.recoverySeconds == RecoverySeconds(ord, LatencyOnly(threshold))
      && 0 <= RecoverySeconds(ord, LatencyOnly(threshold)) <= Seconds(Window(PostStress(ord)))
  {
    hide CalculateThreshold, Seconds, PostStress, Stressed;
    var threshold := CalculateThreshold(baseline, EffectiveTolerance(tolerance));
    PostStressNeedsStress(ord);
    PostStressOrdered(ord);
    var post := PostStress(ord);
    assert ord != [] by { PostStressOfNothing(); }
    SameFirstCalm(post, AtMost(threshold), Within(LatencyOnly(threshold)));
    RecoveryInWindow(post, Within(LatencyOnly(threshold)));
  }

  lemma PostStressOfNothing()
    ensures PostStress([]) == []
  {
  }

  lemma {:induction false} PostStressNeedsStress(obs: seq<Observation>)
    ensures PostStress(obs) != [] ==> Stressed(obs)
  {
    if obs != [] {
      PostStressNeedsStress(obs[..|obs| - 1]);
    }
  }

  /** Do the calculators report the same seconds on this timeline? */
  predicate Agree(ord: seq<Observation>, baseline: real, tolerance: real) {
    var r := RtoOn(ord, baseline, tolerance);
    r.Ok? && r.value.recoverySeconds
      == RecoverySeconds(ord, LatencyOnly(CalculateThreshold(baseline, EffectiveTolerance(tolerance))))
  }

  function Reading(timestamp: int, loadRate: real, p95: real): Observation {
    Observation(timestamp, loadRate, p95, 0.0, 1.0, 0.0, 0.0)
  }

  /** A service that stays slow for ten seconds after the load ends. */
  function SlowTail(): seq<Observation> {
    [Reading(0, 5.0, 1.0), Reading(1, 0.0, 9.0), Reading(10000000001, 0.0, 9.0)]
  }

  lemma SlowTailDisagrees(baseline: real, tolerance: real)
    requires baseline > 0.0 && CalculateThreshold(baseline, EffectiveTolerance(tolerance)) <= 0.0
    ensures Chronological(SlowTail()) && PostStress(SlowTail()) != [] && !Agree(SlowTail(), baseline, tolerance)
  {
    var ord := SlowTail();
    var threshold := CalculateThreshold(baseline, EffectiveTolerance(tolerance));
    assert ord[..2] == [ord[0], ord[1]] && ord[..2][..1] == [ord[0]] && ord[..1] == [ord[0]] && ord[..1][..0] == [];
    assert ord[0] in ord[..1] && ord[0] in ord[..2] && ord[0] in ord;
    assert PostStress([ord[0]]) == [];
    assert PostStress([ord[0], ord[1]]) == [ord[1]];
    assert PostStress(ord) == [ord[1], ord[2]];
    var post := PostStress(ord);
    assert FirstCalm(post, Within(LatencyOnly(threshold))) == 0;
    assert !AtMost(threshold)(post[0]) && !AtMost(threshold)(post[1]);
    assert FirstCalm(post, AtMost(threshold)) == 2;
    assert Seconds(10000000000) == 10;
  }

  /** Agreement on every timeline holds exactly when the rounded threshold is positive:
      a threshold rounded down to zero switches the analyzer's only limit off. */
  lemma AgreementExactlyWhenThresholdPositive(baseline: real, tolerance: real)
    requires baseline > 0.0
    ensures (forall ord :: Chronological(ord) && PostStress(ord) != [] ==> Agree(ord, baseline, tolerance))
       <==> CalculateThreshold(baseline, EffectiveTolerance(tolerance)) > 0.0
  {
    if CalculateThreshold(baseline, EffectiveTolerance(tolerance)) > 0.0 {
      forall ord | Chronological(ord) && PostStress(ord) != [] ensures Agree(ord, baseline, tolerance) {
        CalculatorsAgreeOn(ord, baseline, tolerance);
      }
    } else {
      SlowTailDisagrees(baseline, tolerance);
    }
  }
}
