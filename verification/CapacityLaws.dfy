/** What holds of every result of Analyze: bounds, monotonicity in the policy, and what storage may change. */
module CapacityLaws {
  import opened CapacityModel
  import opened CapacityAnalyzer
  import opened Degradation
  import opened Recovery
  import opened RecoveryObjective
  import opened Sorting

  /** Neither limit exceeds what was tested. */
  lemma LimitsWithinTested(obs: seq<Observation>, ord: seq<Observation>, policy: SafetyPolicy, r: CapacityResult)
    requires IsAnalysis(obs, ord, policy, r)
    ensures 0 <= r.maximumSustainableRate <= r.maximumTestedRate
    ensures 0 <= r.safetyBoundaryRate <= r.maximumTestedRate
  {
    assert forall x :: x in ActiveRates(obs) ==> x > 0 && exists o :: o in obs && TierOf(o) == x;
  }

  /** The boundary is the first rate at which stopping was warranted: every tier below it is clean. */
  lemma BelowBoundaryIsClean(obs: seq<Observation>, ord: seq<Observation>, policy: SafetyPolicy, r: CapacityResult,
                             rate: int)
    requires IsAnalysis(obs, ord, policy, r) && rate in ActiveRates(obs) && rate < r.safetyBoundaryRate
    ensures !TierBreached(obs, policy, rate)
    ensures rate <= r.maximumSustainableRate
  {
    hide TierBreached;
  }

  lemma WeakerBreachesLess(obs: seq<Observation>, weak: SafetyPolicy, strict: SafetyPolicy)
    requires Weaker(weak, strict)
    ensures forall r :: TierBreached(obs, weak, r) ==> TierBreached(obs, strict, r)
  {
  }

  /** Relaxing the limits never lowers either rate, and leaves what does not depend on them alone. */
  lemma WeakerPolicyRaisesLimits(obs: seq<Observation>, ord: seq<Observation>, weak: SafetyPolicy, strict: SafetyPolicy,
                                 w: CapacityResult, s: CapacityResult)
    requires Weaker(weak, strict) && IsAnalysis(obs, ord, weak, w) && IsAnalysis(obs, ord, strict, s)
    ensures s.maximumSustainableRate <= w.maximumSustainableRate
    ensures s.safetyBoundaryRate <= w.safetyBoundaryRate
    ensures s.maximumTestedRate == w.maximumTestedRate && s.degradationRate == w.degradationRate
  {
    if obs != [] {
      WeakerBreachesLess(obs, weak, strict);
      ActiveRatesPositive(obs);
      RatesRaised(obs, weak, strict, w, s);
      DegradationUnique(obs, w.degradationRate, s.degradationRate);
    }
  }

  lemma RatesRaised(obs: seq<Observation>, weak: SafetyPolicy, strict: SafetyPolicy, w: CapacityResult,
                    s: CapacityResult)
    requires forall r :: TierBreached(obs, weak, r) ==> TierBreached(obs, strict, r)
    requires forall r :: r in ActiveRates(obs) ==> r > 0
    requires IsSustainable(obs, weak, w.maximumSustainableRate) && IsSustainable(obs, strict, s.maximumSustainableRate)
    requires IsBoundary(obs, weak, w.maximumSustainableRate, w.safetyBoundaryRate)
    requires IsBoundary(obs, strict, s.maximumSustainableRate, s.safetyBoundaryRate)
    ensures s.maximumSustainableRate <= w.maximumSustainableRate
    ensures s.safetyBoundaryRate <= w.safetyBoundaryRate
  {
    hide TierBreached, ActiveRates;
    if exists r :: r in ActiveRates(obs) && TierBreached(obs, strict, r) {
      if !exists r :: r in ActiveRates(obs) && TierBreached(obs, weak, r) {
        assert !TierBreached(obs, weak, s.safetyBoundaryRate);
      }
    }
  }

  lemma CurveUnique(obs: seq<Observation>, a: seq<Point>, b: seq<Point>)
    requires IsCurve(obs, a) && IsCurve(obs, b)
    ensures a == b
  {
    var n := if |a| < |b| then |a| else |b|;
    CurvePrefix(obs, a, b, n);
    CurveNoLonger(obs, a, b, n);
    CurveNoLonger(obs, b, a, n);
  }

  lemma CurveNoLonger(obs: seq<Observation>, a: seq<Point>, b: seq<Point>, n: nat)
    requires IsCurve(obs, a) && IsCurve(obs, b) && n <= |a| && n <= |b| && (n == |a| || n == |b|)
    requires forall k :: 0 <= k < n ==> a[k] == b[k]
    ensures |a| <= |b|
  {
    hide Total, ActiveRates;
    assert |b| < |a| ==> a[|b|].rate in ActiveRates(obs);
  }

  /** Two curves that agree before position n have the same tier there: neither can skip a tier. */
  lemma NoTierSkipped(obs: seq<Observation>, a: seq<Point>, b: seq<Point>, n: nat)
    requires IsCurve(obs, a) && IsCurve(obs, b) && n < |a| && n < |b|
    requires forall k :: 0 <= k < n ==> a[k] == b[k]
    ensures a[n].rate >= b[n].rate
  {
    hide Total, ActiveRates;
    assert a[n].rate in ActiveRates(obs);
    var i :| 0 <= i < |b| && b[i].rate == a[n].rate;
    assert i >= n;
  }

  lemma {:induction false} CurvePrefix(obs: seq<Observation>, a: seq<Point>, b: seq<Point>, n: nat)
    requires IsCurve(obs, a) && IsCurve(obs, b) && n <= |a| && n <= |b|
    ensures forall k :: 0 <= k < n ==> a[k] == b[k]
  {
    hide Total, ActiveRates;
    if n > 0 {
      CurvePrefix(obs, a, b, n - 1);
      NoTierSkipped(obs, a, b, n - 1);
      NoTierSkipped(obs, b, a, n - 1);
    }
  }

  lemma DegradationUnique(obs: seq<Observation>, a: int, b: int)
    requires IsDegradation(obs, a) && IsDegradation(obs, b)
    ensures a == b
  {
    var c: seq<Point> :| IsCurve(obs, c) && IsFirstKneeRate(c, a);
    var d: seq<Point> :| IsCurve(obs, d) && IsFirstKneeRate(d, b);
    CurveUnique(obs, c, d);
    ActiveRatesPositive(obs);
    assert forall k :: 0 <= k < |c| ==> c[k].rate in ActiveRates(obs);
    FirstKneeUnique(c, a, b);
  }

  /** Relaxing the limits never lengthens recovery: both analyses sort the same readings into the same order. */
  lemma WeakerPolicyRecoversSooner(obs: seq<Observation>, ord: seq<Observation>, weak: SafetyPolicy,
                                   strict: SafetyPolicy, w: CapacityResult, s: CapacityResult)
    requires Weaker(weak, strict) && IsAnalysis(obs, ord, weak, w) && IsAnalysis(obs, ord, strict, s)
    ensures w.recoveryTimeSec <= s.recoveryTimeSec
  {
    hide IsSustainable, IsBoundary, IsDegradation, IsMaximumTested, RecoverySeconds, IsTimeline;
    if obs != [] {
      TimelineIsChronological(obs, ord);
      WeakerRecoversSooner(ord, weak, strict);
    }
  }

  /** Analyze and CalculateRTOWithBaseline report the same recovery for a positive rounded threshold. */
  lemma AnalysisMatchesObjective(obs: seq<Observation>, ord: seq<Observation>, baseline: real, tolerance: real,
                                 r: CapacityResult)
    requires IsTimeline(obs, ord) && RtoOn(ord, baseline, tolerance).Ok?
    requires RtoOn(ord, baseline, tolerance).value.thresholdP95Ms > 0.0
    requires IsAnalysis(obs, ord, LatencyOnly(RtoOn(ord, baseline, tolerance).value.thresholdP95Ms), r)
    ensures r.recoveryTimeSec == RtoOn(ord, baseline, tolerance).value.recoverySeconds
    ensures 0 <= r.recoveryTimeSec <= Seconds(Window(PostStress(ord)))
  {
    hide IsSustainable, IsBoundary, IsDegradation, IsMaximumTested, RecoverySeconds, CalculateThreshold, Seconds,
        IsTimeline, PostStress, Stressed;
    TimelineNotEmpty(obs, ord);
    TimelineIsChronological(obs, ord);
    CalculatorsAgreeOn(ord, baseline, tolerance);
  }

  lemma TimelineNotEmpty(obs: seq<Observation>, ord: seq<Observation>)
    requires IsTimeline(obs, ord) && ord != []
    ensures obs != []
  {
    SameElements(obs, ord);
  }

  // ---------------------------------------------------------------- order and rounding of the input

  /** Same tier, latency, errors and availability: all that the four rates look at. */
  predicate SameReading(a: Observation, b: Observation) {
    && TierOf(a) == TierOf(b) && a.p95LatencyMs == b.p95LatencyMs
    && a.errorRate == b.errorRate && a.availability == b.availability
  }

  ghost predicate SameReadings(a: seq<Observation>, b: seq<Observation>) {
    |a| == |b| && forall i :: 0 <= i < |a| ==> SameReading(a[i], b[i])
  }

  /** The facts about a set of observations that determine the four rates. */
  ghost predicate SameEvidence(a: seq<Observation>, b: seq<Observation>, policy: SafetyPolicy) {
    && (a == [] <==> b == [])
    && ActiveRates(a) == ActiveRates(b)
    && (forall r :: TierBreached(a, policy, r) <==> TierBreached(b, policy, r))
    && forall r :: Total(a, CountIn(r)) == Total(b, CountIn(r)) && Total(a, LatencyIn(r)) == Total(b, LatencyIn(r))
  }

  lemma {:induction false} TotalOfPair(a: seq<Observation>, b: seq<Observation>, f: Observation -> real)
    requires |a| == |b| && forall i :: 0 <= i < |a| ==> f(a[i]) == f(b[i])
    ensures Total(a, f) == Total(b, f)
  {
    if a != [] {
      TotalOfPair(a[..|a| - 1], b[..|b| - 1], f);
    }
  }

  lemma {:induction false} TotalConcat(a: seq<Observation>, b: seq<Observation>, f: Observation -> real)
    ensures Total(a + b, f) == Total(a, f) + Total(b, f)
  {
    if b == [] {
      assert a + b == a;
    } else {
      TotalConcat(a, b[..|b| - 1], f);
      assert (a + b)[..|a + b| - 1] == a + b[..|b| - 1];
    }
  }

  lemma TotalSplice(s: seq<Observation>, i: nat, f: Observation -> real)
    requires i < |s|
    ensures Total(s, f) == f(s[i]) + Total(s[..i] + s[i + 1..], f)
  {
    hide Total;
    TotalConcat(s[..i], s[i + 1..], f);
    TotalAppend(s[..i], s[i], f);
    TotalConcat(s[..i] + [s[i]], s[i + 1..], f);
    assert s == s[..i] + [s[i]] + s[i + 1..];
  }

  /** Sums do not depend on the order of the readings. */
  lemma {:induction false} TotalPermuted(a: seq<Observation>, b: seq<Observation>, f: Observation -> real)
    requires Permuted(a, b)
    ensures Total(a, f) == Total(b, f)
  {
    hide Permuted, Total;
    SameElements(a, b);
    if a == [] {
      assert b == a;
    } else {
      assert a[0] in b;
      var i :| 0 <= i < |b| && b[i] == a[0];
      DropCommon(a, b, i);
      TotalPermuted(a[1..], b[..i] + b[i + 1..], f);
      TotalSplice(b, i, f);
      TotalSplice(a, 0, f);
      assert a[..0] + a[1..] == a[1..];
    }
  }

  lemma PermutedEvidence(a: seq<Observation>, b: seq<Observation>, policy: SafetyPolicy)
    requires Permuted(a, b)
    ensures SameEvidence(a, b, policy)
  {
    SameElements(a, b);
    forall r ensures Total(a, CountIn(r)) == Total(b, CountIn(r)) && Total(a, LatencyIn(r)) == Total(b, LatencyIn(r)) {
      TotalPermuted(a, b, CountIn(r));
      TotalPermuted(a, b, LatencyIn(r));
    }
  }

  lemma PairedEvidence(a: seq<Observation>, b: seq<Observation>, policy: SafetyPolicy)
    requires SameReadings(a, b)
    ensures SameEvidence(a, b, policy)
  {
    forall r ensures Total(a, CountIn(r)) == Total(b, CountIn(r)) && Total(a, LatencyIn(r)) == Total(b, LatencyIn(r)) {
      TotalOfPair(a, b, CountIn(r));
      TotalOfPair(a, b, LatencyIn(r));
    }
    PairedRates(a, b, policy);
    PairedRates(b, a, policy);
    assert ActiveRates(a) == ActiveRates(b);
  }

  lemma PairedRates(a: seq<Observation>, b: seq<Observation>, policy: SafetyPolicy)
    requires SameReadings(a, b)
    ensures ActiveRates(a) <= ActiveRates(b)
    ensures forall r :: TierBreached(a, policy, r) ==> TierBreached(b, policy, r)
  {
    forall o | o in a ensures exists q :: q in b && SameReading(o, q) {
      var i :| 0 <= i < |a| && a[i] == o;
      assert b[i] in b;
    }
    forall r | TierBreached(a, policy, r) ensures TierBreached(b, policy, r) {
      var o :| o in a && TierOf(o) == r && IsSlaBreached(o, policy);
      var q :| q in b && SameReading(o, q);
      assert IsSlaBreached(q, policy);
    }
  }

  lemma EvidenceDecides(a: seq<Observation>, b: seq<Observation>, oa: seq<Observation>, ob: seq<Observation>,
                        policy: SafetyPolicy, ra: CapacityResult, rb: CapacityResult)
    requires SameEvidence(a, b, policy) && IsAnalysis(a, oa, policy, ra) && IsAnalysis(b, ob, policy, rb)
    ensures ra.maximumTestedRate == rb.maximumTestedRate && ra.maximumSustainableRate == rb.maximumSustainableRate
    ensures ra.degradationRate == rb.degradationRate && ra.safetyBoundaryRate == rb.safetyBoundaryRate
  {
    if a != [] {
      TestedFromRates(a, ra.maximumTestedRate);
      TestedFromRates(b, rb.maximumTestedRate);
      LimitsFromEvidence(a, b, policy, ra, rb);
      CurveFromEvidence(a, b, policy, rb.degradationRate);
      DegradationUnique(a, ra.degradationRate, rb.degradationRate);
    }
  }

  lemma TestedFromRates(obs: seq<Observation>, max: int)
    requires IsMaximumTested(obs, max)
    ensures max >= 0 && (max == 0 || max in ActiveRates(obs)) && forall r :: r in ActiveRates(obs) ==> r <= max
  {
  }

  lemma LimitsFromEvidence(a: seq<Observation>, b: seq<Observation>, policy: SafetyPolicy, ra: CapacityResult,
                           rb: CapacityResult)
    requires SameEvidence(a, b, policy)
    requires IsSustainable(a, policy, ra.maximumSustainableRate) && IsSustainable(b, policy, rb.maximumSustainableRate)
    requires IsBoundary(a, policy, ra.maximumSustainableRate, ra.safetyBoundaryRate)
    requires IsBoundary(b, policy, rb.maximumSustainableRate, rb.safetyBoundaryRate)
    ensures ra.maximumSustainableRate == rb.maximumSustainableRate && ra.safetyBoundaryRate == rb.safetyBoundaryRate
  {
    hide TierBreached, ActiveRates;
    assert forall r :: r in ActiveRates(a) <==> r in ActiveRates(b);
    SustainableAtMost(a, b, policy, ra.maximumSustainableRate, rb.maximumSustainableRate);
    SustainableAtMost(b, a, policy, rb.maximumSustainableRate, ra.maximumSustainableRate);
  }

  lemma SustainableAtMost(a: seq<Observation>, b: seq<Observation>, policy: SafetyPolicy, x: int, y: int)
    requires SameEvidence(a, b, policy) && IsSustainable(a, policy, x) && IsSustainable(b, policy, y)
    ensures x <= y
  {
    hide TierBreached, ActiveRates;
  }

  lemma CurveFromEvidence(a: seq<Observation>, b: seq<Observation>, policy: SafetyPolicy, rate: int)
    requires SameEvidence(a, b, policy) && IsDegradation(b, rate)
    ensures IsDegradation(a, rate)
  {
    hide Total, ActiveRates, TierBreached, IsFirstKneeRate;
    var curve :| IsCurve(b, curve) && IsFirstKneeRate(curve, rate);
    assert IsCurve(a, curve);
  }

  /** The four rates survive any reordering of the readings, and any change SameReading does not see. */
  lemma RatesIgnoreOrderAndRounding(a: seq<Observation>, b: seq<Observation>, c: seq<Observation>,
                                    oa: seq<Observation>, oc: seq<Observation>, policy: SafetyPolicy,
                                    ra: CapacityResult, rc: CapacityResult)
    requires SameReadings(a, b) && Permuted(b, c)
    requires IsAnalysis(a, oa, policy, ra) && IsAnalysis(c, oc, policy, rc)
    ensures ra.maximumTestedRate == rc.maximumTestedRate && ra.maximumSustainableRate == rc.maximumSustainableRate
    ensures ra.degradationRate == rc.degradationRate && ra.safetyBoundaryRate == rc.safetyBoundaryRate
  {
    PairedEvidence(a, b, policy);
    PermutedEvidence(b, c, policy);
    EvidenceTransitive(a, b, c, policy);
    EvidenceDecides(a, c, oa, oc, policy, ra, rc);
  }

  lemma EvidenceTransitive(a: seq<Observation>, b: seq<Observation>, c: seq<Observation>, policy: SafetyPolicy)
    requires SameEvidence(a, b, policy) && SameEvidence(b, c, policy)
    ensures SameEvidence(a, c, policy)
  {
    hide Total, TierBreached, ActiveRates;
  }
}
