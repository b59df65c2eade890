/** The safety loop of one experiment, handled one poll at a time: WatcherEngine (internal/watcher/evaluator.go), the
    snapshot handler of StartExperiment (internal/experiment/manager.go), Controller (internal/safety/policy.go) and
    EvaluatingController (internal/safety/controller.go).

    Reason strings and log lines are left out. */
module SafetyStop {
  import opened CapacityModel
  import opened Telemetry

  datatype Metric = P95Latency | ErrorRate | Availability

  datatype Breach = NoBreach | BreachOf(metric: Metric, observed: real, threshold: real)

  datatype AuditRecord = AuditRecord(snapshot: MetricSnapshot, breach: Breach)

  predicate ShouldStop(snapshot: MetricSnapshot, policy: SafetyPolicy) {
    IsSlaBreached(ToObservation(snapshot), policy)
  }

  /** The recorded breach is real, and no limit checked before it was broken. */
  predicate Justified(snapshot: MetricSnapshot, policy: SafetyPolicy, breach: Breach) {
    var latency := policy.maxP95LatencyMs > 0.0 && snapshot.p95LatencyMs > policy.maxP95LatencyMs;
    var errors := policy.maxErrorRate > 0.0 && snapshot.errorRate > policy.maxErrorRate;
    match breach
    case NoBreach => !ShouldStop(snapshot, policy)
    case BreachOf(P95Latency, observed, threshold) => latency && observed == snapshot.p95LatencyMs
        && threshold == policy.maxP95LatencyMs
    case BreachOf(ErrorRate, observed, threshold) => !latency && errors && observed == snapshot.errorRate
        && threshold == policy.maxErrorRate
    case BreachOf(Availability, observed, threshold) =>
      !latency && !errors && ShouldStop(snapshot, policy) && observed == snapshot.availability
        && threshold == policy.minAvailability
  }

  /** Every snapshot has exactly one justified record. */
  lemma JustifiedUnique(snapshot: MetricSnapshot, policy: SafetyPolicy, a: Breach, b: Breach)
    requires Justified(snapshot, policy, a) && Justified(snapshot, policy, b)
    ensures a == b
    ensures a.BreachOf? <==> ShouldStop(snapshot, policy)
  {
  }

  /** The policy-bound evaluator of controller.go, which keeps no audit log, decides the same. */
  method EvaluateWithoutAudit(policy: SafetyPolicy, snapshot: MetricSnapshot) returns (shouldStop: bool)
    ensures shouldStop == ShouldStop(snapshot, policy)
  {
    if policy.maxP95LatencyMs > 0.0 && snapshot.p95LatencyMs > policy.maxP95LatencyMs {
      return true;
    }
    if policy.maxErrorRate > 0.0 && snapshot.errorRate > policy.maxErrorRate {
      return true;
    }
    if policy.minAvailability > 0.0 && snapshot.availability < policy.minAvailability {
      return true;
    }
    return false;
  }

  class Controller {
    var auditLog: seq<AuditRecord>

    constructor ()
      ensures auditLog == []
    {
      auditLog := [];
    }

    method Evaluate(snapshot: MetricSnapshot, policy: SafetyPolicy) returns (shouldStop: bool)
      modifies this
      ensures shouldStop == ShouldStop(snapshot, policy)
      ensures |auditLog| == |old(auditLog)| + 1 && auditLog[..|old(auditLog)|] == old(auditLog)
      ensures var r := auditLog[|old(auditLog)|]; r.snapshot == snapshot && Justified(snapshot, policy, r.breach)
    {
      if policy.maxP95LatencyMs > 0.0 && snapshot.p95LatencyMs > policy.maxP95LatencyMs {
        LogAndRecord(snapshot, BreachOf(P95Latency, snapshot.p95LatencyMs, policy.maxP95LatencyMs));
        return true;
      }
      if policy.maxErrorRate > 0.0 && snapshot.errorRate > policy.maxErrorRate {
        LogAndRecord(snapshot, BreachOf(ErrorRate, snapshot.errorRate, policy.maxErrorRate));
        return true;
      }
      if policy.minAvailability > 0.0 && snapshot.availability < policy.minAvailability {
        LogAndRecord(snapshot, BreachOf(Availability, snapshot.availability, policy.minAvailability));
        return true;
      }
      LogAndRecord(snapshot, NoBreach);
      return false;
    }

    method LogAndRecord(snapshot: MetricSnapshot, breach: Breach)
      modifies this
      ensures auditLog == old(auditLog) + [AuditRecord(snapshot, breach)]
    {
      auditLog := auditLog + [AuditRecord(snapshot, breach)];
    }
  }

  /** Cancels the experiment context on the first breach and never again. */
  class EvaluatingController {
    const controller: Controller
    const policy: SafetyPolicy
    var cancelOnceDone: bool
    var cancels: nat
    ghost var seen: seq<MetricSnapshot>

    ghost predicate Valid()
      reads this, controller
    {
      && cancels == (if exists s :: s in seen && ShouldStop(s, policy) then 1 else 0)
      && cancelOnceDone == (cancels == 1)
      && |controller.auditLog| == |seen|
      && forall i :: 0 <= i < |seen| ==>
        controller.auditLog[i].snapshot == seen[i] && Justified(seen[i], policy, controller.auditLog[i].breach)
    }

    constructor (policy: SafetyPolicy)
      ensures Valid() && seen == [] && fresh(controller)
    {
      this.policy := policy;
      controller := new Controller();
      cancelOnceDone, cancels, seen := false, 0, [];
    }

    /** The closure of MakeSnapshotHandler. */
    method HandleSnapshot(snapshot: MetricSnapshot)
      requires Valid()
      modifies this, controller
      ensures Valid() && seen == old(seen) + [snapshot]
      ensures ShouldStop(snapshot, policy) ==> cancels == 1
    {
      var shouldStop := controller.Evaluate(snapshot, policy);
      seen := seen + [snapshot];
      assert snapshot in seen && forall s :: s in seen <==> s in old(seen) || s == snapshot;
      if !shouldStop {
        return;
      }
      if !cancelOnceDone {
        cancelOnceDone := true;
        cancels := cancels + 1;
      }
    }
  }

  /** One saved observation, and whether stress traffic was still allowed when it was saved. */
  datatype Saved = Saved(observation: Observation, live: bool)

  /** The handler closure of one run, with the contexts and channel it captures. */
  class RunHandler {
    const controller: Controller?
    const policy: SafetyPolicy
    var stressCancelled: bool
    var expCancelled: bool
    var failureSignalled: bool
    var saved: seq<Saved>

    /** Only the last observation saved under live traffic can breach, and then traffic has been cancelled. */
    ghost predicate Valid()
      reads this
    {
      && (forall i :: 0 <= i < |saved| && saved[i].live && IsSlaBreached(saved[i].observation, policy) ==>
           stressCancelled && forall j :: i < j < |saved| ==> !saved[j].live)
      && (failureSignalled ==> stressCancelled && expCancelled)
      && (expCancelled ==> stressCancelled)
    }

    constructor (controller: Controller?, policy: SafetyPolicy)
      ensures Valid() && saved == [] && !stressCancelled && !failureSignalled
      ensures this.controller == controller && this.policy == policy
    {
      this.controller, this.policy := controller, policy;
      stressCancelled, expCancelled, failureSignalled, saved := false, false, false, [];
    }

    /** A breach, a failed save or a missing controller each end stress traffic. */
    predicate Cuts(snapshot: MetricSnapshot, saveOk: bool) {
      !saveOk || controller == null || ShouldStop(snapshot, policy)
    }

    /** StopExperiment, or the engine's return, cancelling the stress context from outside. */
    method CancelStress()
      requires Valid()
      modifies this
      ensures Valid() && stressCancelled && saved == old(saved) && failureSignalled == old(failureSignalled)
    {
      stressCancelled := true;
    }

    /** signalFailure: the Once body runs for the first failure only. */
    method SignalFailure()
      requires failureSignalled ==> stressCancelled && expCancelled
      modifies this
      ensures failureSignalled && stressCancelled && expCancelled && saved == old(saved)
    {
      if !failureSignalled {
        failureSignalled, stressCancelled, expCancelled := true, true, true;
      }
    }

    method Handle(snapshot: MetricSnapshot, saveOk: bool)
      requires Valid()
      modifies this, controller
      ensures Valid()
      ensures saved == if saveOk then old(saved) + [Saved(ToObservation(snapshot), !old(stressCancelled))]
          else old(saved)
      ensures stressCancelled <==> old(stressCancelled) || Cuts(snapshot, saveOk)
      ensures failureSignalled <==> old(failureSignalled) || !saveOk || (controller == null && !old(stressCancelled))
    {
      var observation := ToObservation(snapshot);
      if !saveOk {
        SignalFailure();
        return;
      }
      saved := saved + [Saved(observation, !stressCancelled)];
      if stressCancelled {
        return;
      }
      if controller == null {
        SignalFailure();
        return;
      }
      var shouldStop := controller.Evaluate(snapshot, policy);
      if shouldStop {
        stressCancelled := true;
      }
    }
  }

  /** What one poll forwards: the answer, or a synthetic breach once failures reach the threshold. */
  function Forwards(before: seq<Outcome>, outcome: Outcome, threshold: int): seq<MetricSnapshot> {
    match outcome
    case Answered(snapshot) => [snapshot]
    case Failed(now) => if TrailingFailures(before + [outcome]) >= threshold then [SyntheticBreach(now)] else []
  }

  class WatcherEngine {
    const failureThreshold: int
    var consecutiveFailures: nat
    var handler: RunHandler?
    var running: bool
    ghost var outcomes: seq<Outcome>
    ghost var forwarded: seq<MetricSnapshot>

    ghost predicate Valid()
      reads this
    {
      consecutiveFailures == TrailingFailures(outcomes)
    }

    constructor (failureThreshold: int)
      ensures Valid() && this.failureThreshold == failureThreshold && handler == null && !running && outcomes == []
      ensures forwarded == []
    {
      this.failureThreshold := failureThreshold;
      consecutiveFailures, handler, running, outcomes, forwarded := 0, null, false, [], [];
    }

    method SetSnapshotHandler(h: RunHandler)
      requires Valid()
      modifies this`handler
      ensures Valid() && handler == h
    {
      handler := h;
    }

    /** Starting a running engine changes nothing; otherwise the failure count begins anew. */
    method Start()
      requires Valid()
      modifies this`running, this`consecutiveFailures, this`outcomes
      ensures Valid() && running
      ensures outcomes == if old(running) then old(outcomes) else []
    {
      if running {
        return;
      }
      running, consecutiveFailures, outcomes := true, 0, [];
    }

    method Stop()
      requires Valid()
      modifies this`running
      ensures Valid() && !running
    {
      running := false;
    }

    method Poll(outcome: Outcome, saveOk: bool)
      requires Valid() && (handler != null ==> handler.Valid())
      modifies this, handler, if handler != null then {handler.controller} else {}
      ensures Valid() && handler == old(handler) && outcomes == old(outcomes) + [outcome]
      ensures forwarded == old(forwarded) + Forwards(old(outcomes), outcome, failureThreshold)
      ensures handler != null ==> handler.Valid()
      ensures handler != null ==>
        var sent := Forwards(old(outcomes), outcome, failureThreshold);
        (handler.stressCancelled <==> old(handler.stressCancelled) || (sent != [] && handler.Cuts(sent[0], saveOk)))
    {
      hide RunHandler.Valid, RunHandler.Cuts, TrailingFailures;
      TrailingAppend(outcomes, outcome);
      outcomes := outcomes + [outcome];
      match outcome
      case Failed(now) =>
        consecutiveFailures := consecutiveFailures + 1;
        if consecutiveFailures >= failureThreshold {
          Forward(SyntheticBreach(now), saveOk);
        }
      case Answered(snapshot) =>
        consecutiveFailures := 0;
        Forward(snapshot, saveOk);
    }

    /** pollLoop over the ticks of one run, every save succeeding. */
    method PollLoop(answers: seq<Outcome>)
      requires Valid() && outcomes == [] && handler != null && handler.Valid() && handler.controller != null
      modifies this, handler, handler.controller
      ensures Valid() && outcomes == answers && handler == old(handler) && handler.Valid()
      ensures forwarded == old(forwarded) + ForwardedAll(answers, failureThreshold)
      ensures handler.stressCancelled <==>
          old(handler.stressCancelled) || StopsTraffic(answers, failureThreshold, handler.policy)
    {
      hide RunHandler.Valid, StopsTraffic, ForwardedAll, Forwards, TrailingFailures;
      NothingForwarded(failureThreshold, handler.policy);
      assert answers[..0] == [];
      for i := 0 to |answers|
        invariant Valid() && outcomes == answers[..i] && handler == old(handler) && handler.Valid()
        invariant forwarded == old(forwarded) + ForwardedAll(answers[..i], failureThreshold)
        invariant handler.stressCancelled <==>
            old(handler.stressCancelled) || StopsTraffic(answers[..i], failureThreshold, handler.policy)
      {
        ForwardedStep(answers[..i], answers[i], failureThreshold, handler.policy);
        assert answers[..i] + [answers[i]] == answers[..i + 1];
        Poll(answers[i], true);
      }
      assert answers[..|answers|] == answers;
    }

    method Forward(snapshot: MetricSnapshot, saveOk: bool)
      requires handler != null ==> handler.Valid()
      modifies this`forwarded, handler, if handler != null then {handler.controller} else {}
      ensures forwarded == old(forwarded) + [snapshot]
      ensures handler != null ==> handler.Valid()
      ensures handler != null ==> (handler.stressCancelled <==>
          old(handler.stressCancelled) || handler.Cuts(snapshot, saveOk))
    {
      hide RunHandler.Valid, RunHandler.Cuts;
      forwarded := forwarded + [snapshot];
      if handler != null {
        handler.Handle(snapshot, saveOk);
      }
    }
  }

  // ---------------------------------------------------------------- outages

  /** A failed poll forwards a synthetic breach exactly when the last `threshold` polls all failed. */
  lemma SyntheticExactlyAtThreshold(before: seq<Outcome>, now: int, threshold: int)
    ensures Forwards(before, Failed(now), threshold) == [SyntheticBreach(now)]
       <==> threshold <= |before| + 1 && forall i :: |before| + 1 - threshold <= i < |before| && i >= 0 ==>
         before[i].Failed?
  {
    var after := before + [Failed(now)];
    TrailingAppend(before, Failed(now));
    TrailingMeansAllFailed(after, if threshold < 0 then 0 else threshold);
    assert forall i :: 0 <= i < |before| ==> after[i] == before[i];
  }

  /** The snapshots forwarded over a whole sequence of polls. */
  function ForwardedAll(outcomes: seq<Outcome>, threshold: int): seq<MetricSnapshot> {
    if outcomes == [] then []
    else
      var n := |outcomes| - 1;
      ForwardedAll(outcomes[..n], threshold) + Forwards(outcomes[..n], outcomes[n], threshold)
  }

  /** After which polls is traffic off, for a handler whose saves succeed and whose controller is present? */
  predicate StopsTraffic(outcomes: seq<Outcome>, threshold: int, policy: SafetyPolicy) {
    exists s :: s in ForwardedAll(outcomes, threshold) && ShouldStop(s, policy)
  }

  lemma NothingForwarded(threshold: int, policy: SafetyPolicy)
    ensures ForwardedAll([], threshold) == [] && !StopsTraffic([], threshold, policy)
  {
  }

  lemma ForwardedStep(outcomes: seq<Outcome>, o: Outcome, threshold: int, policy: SafetyPolicy)
    ensures ForwardedAll(outcomes + [o], threshold) == ForwardedAll(outcomes, threshold)
        + Forwards(outcomes, o, threshold)
    ensures StopsTraffic(outcomes + [o], threshold, policy) <==>
      StopsTraffic(outcomes, threshold, policy)
      || (Forwards(outcomes, o, threshold) != [] && ShouldStop(Forwards(outcomes, o, threshold)[0], policy))
  {
    var after, sent := outcomes + [o], Forwards(outcomes, o, threshold);
    assert after[..|outcomes|] == outcomes;
    assert forall s :: s in ForwardedAll(after, threshold) <==> s in ForwardedAll(outcomes, threshold) || s in sent;
    assert sent != [] ==> sent[0] in sent;
  }

  /** An outage of threshold length stops traffic under any policy with an error limit below one or an availability
      floor. */
  lemma OutageStopsTraffic(outcomes: seq<Outcome>, threshold: int, policy: SafetyPolicy)
    requires outcomes != [] && outcomes[|outcomes| - 1].Failed? && TrailingFailures(outcomes) >= threshold
    requires 0.0 < policy.maxErrorRate < 1.0 || policy.minAvailability > 0.0
    ensures StopsTraffic(outcomes, threshold, policy)
  {
    var n := |outcomes| - 1;
    var now := outcomes[n].now;
    assert outcomes[..n] + [outcomes[n]] == outcomes;
    assert Forwards(outcomes[..n], outcomes[n], threshold) == [SyntheticBreach(now)];
    assert SyntheticBreach(now) in ForwardedAll(outcomes, threshold);
    SyntheticTrips(policy, now);
  }

  /** At least n polls, and every one a failure. */
  predicate IsOutage(outcomes: seq<Outcome>, n: nat) {
    outcomes != [] && |outcomes| >= n && forall i :: 0 <= i < |outcomes| ==> outcomes[i].Failed?
  }

  lemma {:induction false} OnlySyntheticInOutage(outcomes: seq<Outcome>, threshold: int)
    requires forall i :: 0 <= i < |outcomes| ==> outcomes[i].Failed?
    ensures forall s :: s in ForwardedAll(outcomes, threshold) ==> exists now :: s == SyntheticBreach(now)
  {
    if outcomes != [] {
      OnlySyntheticInOutage(outcomes[..|outcomes| - 1], threshold);
    }
  }

  /** The fail-safe works for a policy exactly when the policy looks at errors below one or at availability:
      configurations may legally do neither, and then no outage, however long, stops traffic. */
  lemma FailSafeExactlyWhen(policy: SafetyPolicy, threshold: nat)
    ensures (forall outcomes :: IsOutage(outcomes, threshold) ==> StopsTraffic(outcomes, threshold, policy))
       <==> 0.0 < policy.maxErrorRate < 1.0 || policy.minAvailability > 0.0
  {
    if 0.0 < policy.maxErrorRate < 1.0 || policy.minAvailability > 0.0 {
      forall outcomes | IsOutage(outcomes, threshold) ensures StopsTraffic(outcomes, threshold, policy) {
        TrailingMeansAllFailed(outcomes, threshold);
        OutageStopsTraffic(outcomes, threshold, policy);
      }
    } else {
      var outage := seq(threshold + 1, i => Failed(i));
      assert IsOutage(outage, threshold);
      OnlySyntheticInOutage(outage, threshold);
      forall s | s in ForwardedAll(outage, threshold) ensures !ShouldStop(s, policy) {
        var now :| s == SyntheticBreach(now);
        SyntheticTrips(policy, now);
      }
    }
  }
}
