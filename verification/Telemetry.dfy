/** internal/watcher/metric_snapshot.go and the synthetic breach both watchers emit when Prometheus stays silent. */
module Telemetry {
  import opened CapacityModel

  /** The fields later stages read; latency percentiles other than P95 are left out. */
  datatype MetricSnapshot = MetricSnapshot(timestamp: int, requestRate: real, p95LatencyMs: real, errorRate: real,
                                           availability: real)

  /** The sentinel of BuildSyntheticBreachSnapshot: all requests failing, nothing available, latency and rate left at
      zero. */
  function SyntheticBreach(now: int): MetricSnapshot {
    MetricSnapshot(now, 0.0, 0.0, 1.0, 0.0)
  }

  /** What one query came to; a failure is stamped with the time it was noticed. */
  datatype Outcome = Answered(snapshot: MetricSnapshot) | Failed(now: int)

  /** Consecutive failures at the end of a run of queries. */
  function TrailingFailures(outcomes: seq<Outcome>): nat {
    if outcomes == [] || outcomes[|outcomes| - 1].Answered? then 0 else TrailingFailures(outcomes[..|outcomes| - 1]) + 1
  }

  lemma TrailingAppend(outcomes: seq<Outcome>, o: Outcome)
    ensures TrailingFailures(outcomes + [o]) == if o.Failed? then TrailingFailures(outcomes) + 1 else 0
  {
    assert (outcomes + [o])[..|outcomes|] == outcomes;
  }

  /** The count is at least n exactly when the last n queries all failed. */
  lemma {:induction false} TrailingMeansAllFailed(outcomes: seq<Outcome>, n: nat)
    ensures TrailingFailures(outcomes) >= n <==>
        n <= |outcomes| && forall i :: |outcomes| - n <= i < |outcomes| ==> outcomes[i].Failed?
  {
    if n > 0 && outcomes != [] {
      var init := outcomes[..|outcomes| - 1];
      TrailingMeansAllFailed(init, n - 1);
      assert forall i :: 0 <= i < |init| ==> init[i] == outcomes[i];
      if n <= |outcomes| && forall i :: |outcomes| - n <= i < |outcomes| ==> outcomes[i].Failed? {
        assert outcomes[|outcomes| - 1].Failed?;
      }
    }
  }

  /** The observation the snapshot handler saves. */
  function ToObservation(s: MetricSnapshot): Observation {
    Observation(s.timestamp, s.requestRate, s.p95LatencyMs, s.errorRate, s.availability, 0.0, 0.0)
  }

  /** Which policies a synthetic breach trips: an error limit below one, or any availability floor. */
  lemma SyntheticTrips(policy: SafetyPolicy, now: int)
    ensures IsSlaBreached(ToObservation(SyntheticBreach(now)), policy)
       <==> 0.0 < policy.maxErrorRate < 1.0 || policy.minAvailability > 0.0
  {
  }
}
