/** internal/capacity/capacity.go and internal/safety/safety.go: the values that flow through analysis.

    Floats are exact reals, timestamps are integer nanoseconds. */
module CapacityModel {
  import opened Rounding

  datatype Observation = Observation(timestamp: int, loadRate: real, p95LatencyMs: real, errorRate: real,
                                     availability: real, cpuUtilization: real, memoryUtilization: real)

  datatype SafetyPolicy = SafetyPolicy(maxP95LatencyMs: real, maxErrorRate: real, minAvailability: real)

  datatype CapacityResult = CapacityResult(maximumTestedRate: int, maximumSustainableRate: int, degradationRate: int,
                                           safetyBoundaryRate: int, recoveryTimeSec: int)

  /** A limit of zero or less is switched off. */
  predicate IsSlaBreached(obs: Observation, policy: SafetyPolicy) {
    || (policy.maxP95LatencyMs > 0.0 && obs.p95LatencyMs > policy.maxP95LatencyMs)
    || (policy.maxErrorRate > 0.0 && obs.errorRate > policy.maxErrorRate)
    || (policy.minAvailability > 0.0 && obs.availability < policy.minAvailability)
  }

  /** Every limit of `weak` is switched off or no tighter than the one in `strict`. */
  predicate Weaker(weak: SafetyPolicy, strict: SafetyPolicy) {
    && (weak.maxP95LatencyMs <= 0.0 || (strict.maxP95LatencyMs > 0.0 && weak.maxP95LatencyMs >= strict.maxP95LatencyMs))
    && (weak.maxErrorRate <= 0.0 || (strict.maxErrorRate > 0.0 && weak.maxErrorRate >= strict.maxErrorRate))
    && (weak.minAvailability <= 0.0 || (strict.minAvailability > 0.0 && weak.minAvailability <= strict.minAvailability))
  }

  /** Weaker is exactly the order by what a policy lets pass. */
  lemma WeakerIffBreachesLess(weak: SafetyPolicy, strict: SafetyPolicy)
    ensures Weaker(weak, strict) <==> forall o: Observation :: IsSlaBreached(o, weak) ==> IsSlaBreached(o, strict)
  {
    if !Weaker(weak, strict) {
      var calmLatency := if strict.maxP95LatencyMs > 0.0 then strict.maxP95LatencyMs else weak.maxP95LatencyMs + 1.0;
      var calmErrors := if strict.maxErrorRate > 0.0 then strict.maxErrorRate else weak.maxErrorRate + 1.0;
      var calmAvailability := if strict.minAvailability > 0.0 then strict.minAvailability
          else weak.minAvailability - 1.0;
      var o := Observation(0, 0.0, calmLatency, calmErrors, calmAvailability, 0.0, 0.0);
      assert !IsSlaBreached(o, strict) && IsSlaBreached(o, weak);
    }
  }

  function TierOf(obs: Observation): int {
    Round(obs.loadRate)
  }

  /** The tiers under load: rounded rates above zero. */
  function ActiveRates(obs: seq<Observation>): set<int> {
    set o | o in obs && TierOf(o) > 0 :: TierOf(o)
  }

  /** Some observation of the tier broke a limit. */
  predicate TierBreached(obs: seq<Observation>, policy: SafetyPolicy, rate: int) {
    exists o :: o in obs && TierOf(o) == rate && IsSlaBreached(o, policy)
  }

  function Total(obs: seq<Observation>, f: Observation -> real): real {
    if obs == [] then 0.0 else Total(obs[..|obs| - 1], f) + f(obs[|obs| - 1])
  }

  function CountIn(rate: int): Observation -> real {
    (o: Observation) => if TierOf(o) == rate then 1.0 else 0.0
  }

  function LatencyIn(rate: int): Observation -> real {
    (o: Observation) => if TierOf(o) == rate then o.p95LatencyMs else 0.0
  }

  function ErrorsIn(rate: int): Observation -> real {
    (o: Observation) => if TierOf(o) == rate then o.errorRate else 0.0
  }

  /** One point of the latency curve. */
  datatype Point = Point(rate: int, latency: real)

  ghost predicate Ascending(curve: seq<Point>) {
    forall i, j :: 0 <= i < j < |curve| ==> curve[i].rate < curve[j].rate
  }

  /** Mean P95 latency of every active tier, by ascending rate. */
  ghost predicate IsCurve(obs: seq<Observation>, curve: seq<Point>) {
    && Ascending(curve)
    && (forall r :: r in ActiveRates(obs) <==> exists k :: 0 <= k < |curve| && curve[k].rate == r)
    && forall k :: 0 <= k < |curve| ==>
      && Total(obs, CountIn(curve[k].rate)) > 0.0
      && curve[k].latency == Total(obs, LatencyIn(curve[k].rate)) / Total(obs, CountIn(curve[k].rate))
  }
}
