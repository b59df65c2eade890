/** internal/capacity/analyzer.go, Analyze: throughput limits from telemetry. */
module CapacityAnalyzer {
  import opened CapacityModel
  import opened Degradation
  import opened Recovery
  import opened Rounding
  import opened Sorting

  // ---------------------------------------------------------------- what the five numbers mean

  ghost predicate IsMaximumTested(obs: seq<Observation>, max: int) {
    && max >= 0
    && (forall o :: o in obs ==> TierOf(o) <= max)
    && (max == 0 || exists o :: o in obs && TierOf(o) == max)
  }

  /** The greatest tier without a single breach, or 0. */
  ghost predicate IsSustainable(obs: seq<Observation>, policy: SafetyPolicy, rate: int) {
    && rate >= 0
    && (rate == 0 || (rate in ActiveRates(obs) && !TierBreached(obs, policy, rate)))
    && forall r :: r in ActiveRates(obs) && !TierBreached(obs, policy, r) ==> r <= rate
  }

  /** The least tier with a breach, or the sustainable rate when no tier has one. */
  ghost predicate IsBoundary(obs: seq<Observation>, policy: SafetyPolicy, sustainable: int, rate: int) {
    if exists r :: r in ActiveRates(obs) && TierBreached(obs, policy, r) then
      && rate in ActiveRates(obs) && TierBreached(obs, policy, rate)
      && forall r :: r in ActiveRates(obs) && TierBreached(obs, policy, r) ==> rate <= r
    else
      rate == sustainable
  }

  ghost predicate IsDegradation(obs: seq<Observation>, rate: int) {
    exists curve :: IsCurve(obs, curve) && IsFirstKneeRate(curve, rate)
  }

  /** The five numbers of a report on obs, which were sorted into ord. */
  ghost predicate IsAnalysis(obs: seq<Observation>, ord: seq<Observation>, policy: SafetyPolicy, r: CapacityResult) {
    if obs == [] then r == CapacityResult(0, 0, 0, 0, 0)
    else
      && IsMaximumTested(obs, r.maximumTestedRate)
      && IsSustainable(obs, policy, r.maximumSustainableRate)
      && IsBoundary(obs, policy, r.maximumSustainableRate, r.safetyBoundaryRate)
      && IsDegradation(obs, r.degradationRate)
      && IsTimeline(obs, ord) && r.recoveryTimeSec == RecoverySeconds(ord, policy)
  }

  // ---------------------------------------------------------------- tier aggregation

  datatype TierMetrics = TierMetrics(totalP95: real, totalError: real, minAvail: real, count: nat, anyBreach: bool)

  datatype AggregatedTier = AggregatedTier(loadRate: int, avgP95Ms: real, avgErrorRate: real, minAvail: real,
                                           hasBreach: bool)

  predicate IsTierCompliant(tier: AggregatedTier, policy: SafetyPolicy) {
    && !tier.hasBreach
    && !(policy.maxP95LatencyMs > 0.0 && tier.avgP95Ms > policy.maxP95LatencyMs)
    && !(policy.maxErrorRate > 0.0 && tier.avgErrorRate > policy.maxErrorRate)
    && !(policy.minAvailability > 0.0 && tier.minAvail < policy.minAvailability)
  }

  ghost predicate IsMinAvail(obs: seq<Observation>, rate: int, min: real) {
    && (forall o :: o in obs && TierOf(o) == rate ==> min <= o.availability)
    && exists o :: o in obs && TierOf(o) == rate && o.availability == min
  }

  ghost predicate Summarises(obs: seq<Observation>, policy: SafetyPolicy, rate: int, m: TierMetrics) {
    && m.count > 0
    && m.count as real == Total(obs, CountIn(rate))
    && m.totalP95 == Total(obs, LatencyIn(rate))
    && m.totalError == Total(obs, ErrorsIn(rate))
    && (m.anyBreach <==> TierBreached(obs, policy, rate))
    && IsMinAvail(obs, rate, m.minAvail)
  }

  /** The update one observation makes to its tier. */
  function Absorb(m: TierMetrics, o: Observation, breached: bool): TierMetrics {
    TierMetrics(m.totalP95 + o.p95LatencyMs, m.totalError + o.errorRate,
                if o.availability < m.minAvail then o.availability else m.minAvail,
                m.count + 1, m.anyBreach || breached)
  }

  lemma TotalAppend(obs: seq<Observation>, o: Observation, f: Observation -> real)
    ensures Total(obs + [o], f) == Total(obs, f) + f(o)
  {
    assert (obs + [o])[..|obs|] == obs;
  }

  lemma {:induction false} TotalNothing(obs: seq<Observation>, f: Observation -> real)
    requires forall o :: o in obs ==> f(o) == 0.0
    ensures Total(obs, f) == 0.0
  {
    if obs != [] {
      TotalNothing(obs[..|obs| - 1], f);
    }
  }

  lemma SummaryGrows(obs: seq<Observation>, policy: SafetyPolicy, o: Observation, m: TierMetrics)
    requires Summarises(obs, policy, TierOf(o), m)
    ensures Summarises(obs + [o], policy, TierOf(o), Absorb(m, o, IsSlaBreached(o, policy)))
  {
    var rate, after := TierOf(o), obs + [o];
    TotalAppend(obs, o, CountIn(rate));
    TotalAppend(obs, o, LatencyIn(rate));
    TotalAppend(obs, o, ErrorsIn(rate));
    assert forall x :: x in after <==> x in obs || x == o;
    BreachGrows(obs, policy, o);
    MinGrows(obs, rate, o, m.minAvail);
  }

  lemma BreachGrows(obs: seq<Observation>, policy: SafetyPolicy, o: Observation)
    ensures forall r :: TierBreached(obs + [o], policy, r) <==>
        TierBreached(obs, policy, r) || (TierOf(o) == r && IsSlaBreached(o, policy))
  {
    assert forall x :: x in obs + [o] <==> x in obs || x == o;
    assert o in obs + [o];
  }

  lemma MinGrows(obs: seq<Observation>, rate: int, o: Observation, min: real)
    requires IsMinAvail(obs, rate, min) && TierOf(o) == rate
    ensures IsMinAvail(obs + [o], rate, if o.availability < min then o.availability else min)
  {
    assert forall x :: x in obs + [o] <==> x in obs || x == o;
    var w :| w in obs && TierOf(w) == rate && w.availability == min;
    assert w in obs + [o] && o in obs + [o];
  }

  lemma SummaryStarts(obs: seq<Observation>, policy: SafetyPolicy, o: Observation)
    requires forall x :: x in obs ==> TierOf(x) != TierOf(o)
    ensures Summarises(obs + [o], policy, TierOf(o),
        Absorb(TierMetrics(0.0, 0.0, o.availability, 0, false), o, IsSlaBreached(o, policy)))
  {
    var rate, after := TierOf(o), obs + [o];
    TotalAppend(obs, o, CountIn(rate));
    TotalAppend(obs, o, LatencyIn(rate));
    TotalAppend(obs, o, ErrorsIn(rate));
    TotalNothing(obs, CountIn(rate));
    TotalNothing(obs, LatencyIn(rate));
    TotalNothing(obs, ErrorsIn(rate));
    assert forall x :: x in after <==> x in obs || x == o;
    BreachGrows(obs, policy, o);
    assert o in after;
  }

  lemma SummaryKeeps(obs: seq<Observation>, policy: SafetyPolicy, o: Observation, rate: int, m: TierMetrics)
    requires Summarises(obs, policy, rate, m) && TierOf(o) != rate
    ensures Summarises(obs + [o], policy, rate, m)
  {
    TotalAppend(obs, o, CountIn(rate));
    TotalAppend(obs, o, LatencyIn(rate));
    TotalAppend(obs, o, ErrorsIn(rate));
    assert forall x :: x in obs + [o] <==> x in obs || x == o;
    BreachGrows(obs, policy, o);
    var w :| w in obs && TierOf(w) == rate && w.availability == m.minAvail;
    assert w in obs + [o];
  }

  lemma ActiveRatesGrow(obs: seq<Observation>, o: Observation)
    ensures ActiveRates(obs + [o]) == ActiveRates(obs) + (if TierOf(o) > 0 then {TierOf(o)} else {})
  {
    assert forall x :: x in obs + [o] <==> x in obs || x == o;
    if TierOf(o) > 0 {
      assert o in obs + [o];
    }
  }

  ghost predicate IsTierMap(obs: seq<Observation>, policy: SafetyPolicy, tiers: map<int, TierMetrics>) {
    tiers.Keys == ActiveRates(obs) && forall r :: r in tiers ==> Summarises(obs, policy, r, tiers[r])
  }

  lemma TierMapStep(obs: seq<Observation>, policy: SafetyPolicy, tiers: map<int, TierMetrics>, o: Observation)
    requires IsTierMap(obs, policy, tiers)
    ensures TierOf(o) <= 0 ==> IsTierMap(obs + [o], policy, tiers)
    ensures TierOf(o) > 0 ==>
      var rate := TierOf(o);
      var m := if rate in tiers then tiers[rate] else TierMetrics(0.0, 0.0, o.availability, 0, false);
      IsTierMap(obs + [o], policy, tiers[rate := Absorb(m, o, IsSlaBreached(o, policy))])
  {
    hide Summarises;
    var rate := TierOf(o);
    ActiveRatesGrow(obs, o);
    forall r | r in tiers && r != rate ensures Summarises(obs + [o], policy, r, tiers[r]) {
      SummaryKeeps(obs, policy, o, r, tiers[r]);
    }
    if rate in tiers {
      SummaryGrows(obs, policy, o, tiers[rate]);
    } else if rate > 0 {
      assert forall x :: x in obs && TierOf(x) > 0 ==> TierOf(x) in ActiveRates(obs);
      SummaryStarts(obs, policy, o);
    }
  }

  method Aggregate(observations: seq<Observation>, policy: SafetyPolicy) returns (tiers: map<int, TierMetrics>)
    ensures IsTierMap(observations, policy, tiers)
  {
    hide IsTierMap;
    tiers := map[];
    EmptyTierMap(policy);
    assert observations[..0] == [];
    for i := 0 to |observations|
      invariant IsTierMap(observations[..i], policy, tiers)
    {
      var o := observations[i];
      assert observations[..i + 1] == observations[..i] + [o];
      TierMapStep(observations[..i], policy, tiers, o);
      var rate := Round(o.loadRate);
      if rate <= 0 {
        continue;
      }
      var breached := IsSlaBreached(o, policy);
      var m := if rate in tiers then tiers[rate] else TierMetrics(0.0, 0.0, o.availability, 0, false);
      tiers := tiers[rate := Absorb(m, o, breached)];
    }
    assert observations[..|observations|] == observations;
  }

  lemma EmptyTierMap(policy: SafetyPolicy)
    ensures IsTierMap([], policy, map[])
  {
  }

  // ---------------------------------------------------------------- compliance

  ghost predicate IsTier(obs: seq<Observation>, policy: SafetyPolicy, t: AggregatedTier) {
    var n := Total(obs, CountIn(t.loadRate));
    && n > 0.0
    && t.avgP95Ms == Total(obs, LatencyIn(t.loadRate)) / n
    && t.avgErrorRate == Total(obs, ErrorsIn(t.loadRate)) / n
    && IsMinAvail(obs, t.loadRate, t.minAvail)
    && (t.hasBreach <==> TierBreached(obs, policy, t.loadRate))
  }

  lemma {:induction false} SumBounded(obs: seq<Observation>, f: Observation -> real, count: Observation -> real,
                                      limit: real)
    requires forall o :: o in obs ==> f(o) <= limit * count(o)
    ensures Total(obs, f) <= limit * Total(obs, count)
  {
    if obs != [] {
      var init, last := obs[..|obs| - 1], obs[|obs| - 1];
      SumBounded(init, f, count, limit);
      assert last in obs;
      assert limit * Total(obs, count) == limit * Total(init, count) + limit * count(last);
    }
  }

  lemma MeanBounded(sum: real, n: real, limit: real)
    requires n > 0.0 && sum <= limit * n
    ensures sum / n <= limit
  {
    var mean := sum / n;
    assert mean * n == sum;
    assert mean > limit ==> (mean - limit) * n > 0.0;
  }

  /** The mean and minimum checks never fail on a tier whose observations all passed. */
  lemma TierCompliantIffUnbreached(obs: seq<Observation>, policy: SafetyPolicy, t: AggregatedTier)
    requires IsTier(obs, policy, t)
    ensures IsTierCompliant(t, policy) <==> !TierBreached(obs, policy, t.loadRate)
  {
    var rate, n := t.loadRate, Total(obs, CountIn(t.loadRate));
    if !TierBreached(obs, policy, rate) {
      if policy.maxP95LatencyMs > 0.0 {
        SumBounded(obs, LatencyIn(rate), CountIn(rate), policy.maxP95LatencyMs);
        MeanBounded(Total(obs, LatencyIn(rate)), n, policy.maxP95LatencyMs);
      }
      if policy.maxErrorRate > 0.0 {
        SumBounded(obs, ErrorsIn(rate), CountIn(rate), policy.maxErrorRate);
        MeanBounded(Total(obs, ErrorsIn(rate)), n, policy.maxErrorRate);
      }
    }
  }

  // ---------------------------------------------------------------- sorted tiers and the scan over them

  ghost predicate AreSortedTiers(obs: seq<Observation>, policy: SafetyPolicy, tiers: seq<AggregatedTier>) {
    && (forall i, j :: 0 <= i < j < |tiers| ==> tiers[i].loadRate < tiers[j].loadRate)
    && (forall r :: r in ActiveRates(obs) <==> exists k :: 0 <= k < |tiers| && tiers[k].loadRate == r)
    && forall k :: 0 <= k < |tiers| ==> IsTier(obs, policy, tiers[k])
  }

  function CurveOf(tiers: seq<AggregatedTier>): seq<Point> {
    seq(|tiers|, i requires 0 <= i < |tiers| => Point(tiers[i].loadRate, tiers[i].avgP95Ms))
  }

  lemma CurveOfTiers(obs: seq<Observation>, policy: SafetyPolicy, tiers: seq<AggregatedTier>)
    requires AreSortedTiers(obs, policy, tiers)
    ensures IsCurve(obs, CurveOf(tiers))
  {
    var curve := CurveOf(tiers);
    forall r ensures r in ActiveRates(obs) <==> exists k :: 0 <= k < |curve| && curve[k].rate == r {
      if r in ActiveRates(obs) {
        var k :| 0 <= k < |tiers| && tiers[k].loadRate == r;
        assert curve[k].rate == r;
      }
      if k :| 0 <= k < |curve| && curve[k].rate == r {
        assert tiers[k].loadRate == r;
      }
    }
    forall k | 0 <= k < |curve|
      ensures Total(obs, CountIn(curve[k].rate)) > 0.0
      ensures curve[k].latency == Total(obs, LatencyIn(curve[k].rate)) / Total(obs, CountIn(curve[k].rate))
    {
      assert IsTier(obs, policy, tiers[k]);
    }
  }

  function AtMostInt(): (int, int) -> bool {
    (a, b) => a <= b
  }

  method SortedRates(rates: set<int>) returns (sorted: seq<int>)
    ensures forall i, j :: 0 <= i < j < |sorted| ==> sorted[i] < sorted[j]
    ensures forall r :: r in rates <==> r in sorted
  {
    var unsorted := ListKeys(rates);
    sorted := Sort(unsorted, AtMostInt());
    SameElements(unsorted, sorted);
    forall i, j | 0 <= i < j < |sorted| ensures sorted[i] < sorted[j] {
      assert AtMostInt()(sorted[i], sorted[j]);
      DistinctPermuted(unsorted, sorted, i, j);
    }
  }

  lemma {:induction false} CountOnce(s: seq<int>, x: int)
    requires NoRepeats(s)
    ensures multiset(s)[x] <= 1
  {
    if s != [] {
      assert s == [s[0]] + s[1..];
      CountOnce(s[1..], x);
      if s[0] == x {
        assert x !in s[1..];
        assert x !in multiset(s[1..]);
      }
    }
  }

  lemma DistinctPermuted(s: seq<int>, r: seq<int>, i: nat, j: nat)
    requires NoRepeats(s)
    requires Permuted(s, r) && i < j < |r|
    ensures r[i] != r[j]
  {
    CountOnce(s, r[i]);
    assert r == r[..j] + [r[j]] + r[j + 1..];
    assert r[i] in r[..j];
    assert multiset(r)[r[j]] >= multiset(r[..j])[r[j]] + 1;
  }

  method BuildTiers(observations: seq<Observation>, policy: SafetyPolicy) returns (tiers: seq<AggregatedTier>)
    ensures AreSortedTiers(observations, policy, tiers)
  {
    hide IsTier, Summarises;
    var byRate := Aggregate(observations, policy);
    var rates := SortedRates(byRate.Keys);
    tiers := [];
    for i := 0 to |rates|
      invariant |tiers| == i
      invariant forall k :: 0 <= k < i ==> tiers[k].loadRate == rates[k] && IsTier(observations, policy, tiers[k])
    {
      var r := rates[i];
      var m := byRate[r];
      SummaryIsTier(observations, policy, r, m);
      tiers := tiers + [AggregatedTier(r, m.totalP95 / m.count as real, m.totalError / m.count as real, m.minAvail,
        m.anyBreach)];
    }
    forall r | r in ActiveRates(observations) ensures exists k :: 0 <= k < |tiers| && tiers[k].loadRate == r {
      var k :| 0 <= k < |rates| && rates[k] == r;
      assert tiers[k].loadRate == r;
    }
    forall k | 0 <= k < |tiers| ensures tiers[k].loadRate in ActiveRates(observations) {
      assert rates[k] in rates;
    }
  }

  lemma SummaryIsTier(obs: seq<Observation>, policy: SafetyPolicy, r: int, m: TierMetrics)
    requires Summarises(obs, policy, r, m)
    ensures m.count > 0
    ensures IsTier(obs, policy,
        AggregatedTier(r, m.totalP95 / m.count as real, m.totalError / m.count as real, m.minAvail, m.anyBreach))
  {
  }

  lemma ActiveRatesPositive(obs: seq<Observation>)
    ensures forall r :: r in ActiveRates(obs) ==> r > 0
  {
  }

  /** Sustainable and first breaching rates over a prefix of the ascending tiers. */
  ghost predicate Scanned(obs: seq<Observation>, policy: SafetyPolicy, tiers: seq<AggregatedTier>, n: nat,
                          sustainable: int, firstBreach: int)
    requires n <= |tiers|
  {
    && (sustainable == 0
        || exists k :: 0 <= k < n && tiers[k].loadRate == sustainable && !TierBreached(obs, policy, sustainable))
    && (forall k :: 0 <= k < n && !TierBreached(obs, policy, tiers[k].loadRate) ==> tiers[k].loadRate <= sustainable)
    && sustainable >= 0 && firstBreach >= 0
    && (firstBreach == 0 ==> forall k :: 0 <= k < n ==> !TierBreached(obs, policy, tiers[k].loadRate))
    && (firstBreach != 0 ==>
        exists k :: 0 <= k < n && tiers[k].loadRate == firstBreach && TierBreached(obs, policy, firstBreach))
    && (firstBreach != 0 ==>
        forall k :: 0 <= k < n && TierBreached(obs, policy, tiers[k].loadRate) ==> firstBreach <= tiers[k].loadRate)
  }

  method ScanTiers(ghost obs: seq<Observation>, policy: SafetyPolicy, tiers: seq<AggregatedTier>)
    returns (sustainable: int, boundary: int)
    requires AreSortedTiers(obs, policy, tiers)
    ensures IsSustainable(obs, policy, sustainable)
    ensures IsBoundary(obs, policy, sustainable, boundary)
  {
    hide IsTier, IsTierCompliant, TierBreached;
    sustainable := 0;
    var firstBreachRate := 0;
    ActiveRatesPositive(obs);
    for i := 0 to |tiers|
      invariant Scanned(obs, policy, tiers, i, sustainable, firstBreachRate)
    {
      TierCompliantIffUnbreached(obs, policy, tiers[i]);
      assert tiers[i].loadRate in ActiveRates(obs);
      ScanStep(obs, policy, tiers, i, sustainable, firstBreachRate);
      if IsTierCompliant(tiers[i], policy) {
        if tiers[i].loadRate > sustainable {
          sustainable := tiers[i].loadRate;
        }
      } else if firstBreachRate == 0 {
        firstBreachRate := tiers[i].loadRate;
      }
    }
    ScanResult(obs, policy, tiers, sustainable, firstBreachRate);
    boundary := sustainable;
    if firstBreachRate > 0 {
      boundary := firstBreachRate;
    }
  }

  lemma ScanStep(obs: seq<Observation>, policy: SafetyPolicy, tiers: seq<AggregatedTier>, n: nat, sustainable: int,
                 firstBreach: int)
    requires n < |tiers| && Scanned(obs, policy, tiers, n, sustainable, firstBreach) && tiers[n].loadRate > 0
    requires forall i, j :: 0 <= i < j < |tiers| ==> tiers[i].loadRate < tiers[j].loadRate
    ensures var rate := tiers[n].loadRate;
      if TierBreached(obs, policy, rate)
      then Scanned(obs, policy, tiers, n + 1, sustainable, if firstBreach == 0 then rate else firstBreach)
      else Scanned(obs, policy, tiers, n + 1, if rate > sustainable then rate else sustainable, firstBreach)
  {
    hide TierBreached;
    var rate := tiers[n].loadRate;
    assert sustainable < rate;
  }

  lemma ScanResult(obs: seq<Observation>, policy: SafetyPolicy, tiers: seq<AggregatedTier>, sustainable: int,
                   firstBreach: int)
    requires AreSortedTiers(obs, policy, tiers) && Scanned(obs, policy, tiers, |tiers|, sustainable, firstBreach)
    ensures IsSustainable(obs, policy, sustainable)
    ensures IsBoundary(obs, policy, sustainable, if firstBreach > 0 then firstBreach else sustainable)
  {
    hide IsTier, TierBreached, ActiveRates;
  }

  lemma MaximumTestedStep(obs: seq<Observation>, o: Observation, max: int)
    requires IsMaximumTested(obs, max)
    ensures IsMaximumTested(obs + [o], if TierOf(o) > max then TierOf(o) else max)
  {
    var after := obs + [o];
    assert forall x :: x in after <==> x in obs || x == o;
    assert o in after;
    if max != 0 {
      var w :| w in obs && TierOf(w) == max;
      assert w in after;
    }
  }

  method MaximumTested(observations: seq<Observation>) returns (max: int)
    ensures IsMaximumTested(observations, max)
  {
    max := 0;
    for i := 0 to |observations|
      invariant IsMaximumTested(observations[..i], max)
    {
      assert observations[..i + 1] == observations[..i] + [observations[i]];
      MaximumTestedStep(observations[..i], observations[i], max);
      var rate := Round(observations[i].loadRate);
      if rate > max {
        max := rate;
      }
    }
    assert observations[..|observations|] == observations;
  }

  method Analyze(observations: seq<Observation>, policy: SafetyPolicy, sorted: seq<Observation> -> seq<Observation>)
    returns (r: CapacityResult)
    requires SortsByTime(sorted)
    ensures IsAnalysis(observations, sorted(observations), policy, r)
  {
    hide IsMaximumTested, IsSustainable, IsBoundary, IsCurve, IsFirstKneeRate, AreSortedTiers, Permuted;
    if |observations| == 0 {
      return CapacityResult(0, 0, 0, 0, 0);
    }
    var maxTestedRate := MaximumTested(observations);
    var sortedTiers := BuildTiers(observations, policy);
    var maxSustainableRate, safetyBoundaryRate := ScanTiers(observations, policy, sortedTiers);
    CurveOfTiers(observations, policy, sortedTiers);
    var degradationRate := CalculateDegradationRate(CurveOf(sortedTiers));
    var ord := sorted(observations);
    TimelineIsChronological(observations, ord);
    var recoveryTimeSec := CalculateRecoveryTime(ord, policy);
    return CapacityResult(maxTestedRate, maxSustainableRate, degradationRate, safetyBoundaryRate, recoveryTimeSec);
  }
}
