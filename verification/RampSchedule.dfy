/** internal/stress/ramp.go and load_plan.go: the stepped load schedule in 64-bit arithmetic.

    Go's int and time.Duration are 64-bit here; the verifier rejects any addition in the loops that could leave that
    range. */
module RampSchedule {
  newtype int64 = x: int | -0x8000_0000_0000_0000 <= x < 0x8000_0000_0000_0000

  datatype LoadPlan = LoadPlan(initialRate: int64, stepRate: int64, maxRate: int64, stepDurationSeconds: int64)

  /** stepDuration, in nanoseconds, overrides the plan's duration when positive. */
  datatype StepController = StepController(plan: LoadPlan, stepDuration: int64)

  datatype RateStep = RateStep(stepNumber: int64, rate: int64, duration: int64)

  datatype PlanError = BadInitialRate | MaxBelowInitial | NegativeStep | ZeroStep | BadDuration | DurationTooLong

  datatype Result<T> = Ok(value: T) | Err(error: PlanError)

  const MAX_STEP_DURATION_SECONDS: int64 := 9223372036

  const NANOS_PER_SECOND: int := 1000000000

  predicate ValidPlan(c: StepController) {
    && 0 < c.plan.initialRate <= c.plan.maxRate && 0 <= c.plan.stepRate
    && (c.plan.stepRate == 0 ==> c.plan.maxRate == c.plan.initialRate)
    && (c.stepDuration <= 0 ==> 0 < c.plan.stepDurationSeconds <= MAX_STEP_DURATION_SECONDS)
  }

  method Validate(c: StepController) returns (r: Result<()>)
    ensures r.Ok? <==> ValidPlan(c)
  {
    if c.plan.initialRate <= 0 {
      return Err(BadInitialRate);
    }
    if c.plan.maxRate < c.plan.initialRate {
      return Err(MaxBelowInitial);
    }
    if c.plan.stepRate < 0 {
      return Err(NegativeStep);
    }
    if c.plan.stepRate == 0 && c.plan.maxRate > c.plan.initialRate {
      return Err(ZeroStep);
    }
    if c.stepDuration <= 0 {
      if c.plan.stepDurationSeconds <= 0 {
        return Err(BadDuration);
      }
      if c.plan.stepDurationSeconds > MAX_STEP_DURATION_SECONDS {
        return Err(DurationTooLong);
      }
    }
    return Ok(());
  }

  /** Two's-complement wrap-around. */
  function Wrap(n: int): int64 {
    ((n + 0x8000_0000_0000_0000) % 0x1_0000_0000_0000_0000 - 0x8000_0000_0000_0000) as int64
  }

  function Duration(c: StepController): int64 {
    if c.stepDuration > 0 then c.stepDuration else Wrap(c.plan.stepDurationSeconds as int * NANOS_PER_SECOND)
  }

  /** Validation keeps the duration in range: it is positive and did not wrap.  One second more would wrap. */
  lemma DurationExact(c: StepController)
    requires ValidPlan(c)
    ensures Duration(c) > 0
    ensures c.stepDuration <= 0 ==> Duration(c) as int == c.plan.stepDurationSeconds as int * NANOS_PER_SECOND
    ensures Wrap((MAX_STEP_DURATION_SECONDS as int + 1) * NANOS_PER_SECOND) < 0
  {
  }

  // ---------------------------------------------------------------- the schedule

  function Min(a: int, b: int): int {
    if a < b then a else b
  }

  /** The rate of step k + 1. */
  function RateAt(p: LoadPlan, k: nat): int {
    Min(p.initialRate as int + k * p.stepRate as int, p.maxRate as int)
  }

  function StepTotal(p: LoadPlan): nat
    requires p.initialRate <= p.maxRate && (p.stepRate == 0 ==> p.maxRate == p.initialRate) && p.stepRate >= 0
  {
    if p.maxRate == p.initialRate then 1
    else (p.maxRate as int - p.initialRate as int + p.stepRate as int - 1) / p.stepRate as int + 1
  }

  lemma DivideUp(d: int, step: int)
    requires d > 0 && step > 0
    ensures var n := (d + step - 1) / step; n > 0 && (n - 1) * step < d <= n * step
  {
    var n := (d + step - 1) / step;
    assert n * step <= d + step - 1 < n * step + step;
    assert n <= 0 ==> n * step <= 0;
    assert (n - 1) * step == n * step - step;
  }

  lemma MultipleMonotone(a: nat, b: nat, step: int)
    requires a <= b && step >= 0
    ensures a * step <= b * step
  {
    assert (b - a) * step >= 0;
  }

  /** The ceiling is met at the last step and not before. */
  lemma CeilingAtLast(c: StepController, k: nat)
    requires ValidPlan(c)
    ensures RateAt(c.plan, k) == c.plan.maxRate as int <==> k >= StepTotal(c.plan) - 1
    ensures k < StepTotal(c.plan) - 1 ==> RateAt(c.plan, k) == c.plan.initialRate as int + k * c.plan.stepRate as int
  {
    var d, step := c.plan.maxRate as int - c.plan.initialRate as int, c.plan.stepRate as int;
    if d > 0 {
      DivideUp(d, step);
      var n := (d + step - 1) / step;
      if k >= n {
        MultipleMonotone(n, k, step);
      } else {
        MultipleMonotone(k, n - 1, step);
      }
    }
  }

  /** Rates rise strictly from the initial to the maximum rate. */
  lemma ScheduleRises(c: StepController)
    requires ValidPlan(c)
    ensures StepTotal(c.plan) >= 1 && RateAt(c.plan, 0) == c.plan.initialRate as int
    ensures RateAt(c.plan, StepTotal(c.plan) - 1) == c.plan.maxRate as int
    ensures forall i: nat, j: nat :: i < j < StepTotal(c.plan) ==> RateAt(c.plan, i) < RateAt(c.plan, j)
  {
    CeilingAtLast(c, StepTotal(c.plan) - 1);
    forall i: nat, j: nat | i < j < StepTotal(c.plan) ensures RateAt(c.plan, i) < RateAt(c.plan, j) {
      CeilingAtLast(c, i);
      CeilingAtLast(c, j);
      var step := c.plan.stepRate as int;
      assert step > 0;
      assert (j - i) * step > 0;
      assert j * step == i * step + (j - i) * step;
      assert RateAt(c.plan, i) < c.plan.maxRate as int;
    }
  }

  lemma NextRate(c: StepController, k: nat)
    requires ValidPlan(c) && RateAt(c.plan, k) < c.plan.maxRate as int
    ensures RateAt(c.plan, k + 1) == Min(RateAt(c.plan, k) + c.plan.stepRate as int, c.plan.maxRate as int)
    ensures c.plan.stepRate > 0 && k + 1 < StepTotal(c.plan)
    ensures k + 1 <= RateAt(c.plan, k)
  {
    hide StepTotal;
    CeilingAtLast(c, k);
    MoreThanCount(k, c.plan.stepRate as int);
  }

  lemma MoreThanCount(k: nat, step: int)
    requires step > 0
    ensures k * step >= k && (k + 1) * step == k * step + step
  {
    assert k * (step - 1) >= 0;
  }

  function StepAt(c: StepController, k: nat): RateStep
    requires ValidPlan(c) && k < StepTotal(c.plan)
  {
    CeilingAtLast(c, k);
    StepNumberFits(c, k);
    RateStep((k + 1) as int64, RateAt(c.plan, k) as int64, Duration(c))
  }

  lemma StepNumberFits(c: StepController, k: nat)
    requires ValidPlan(c) && k < StepTotal(c.plan)
    ensures 0 < k + 1 < 0x8000_0000_0000_0000
    ensures 0 < RateAt(c.plan, k) < 0x8000_0000_0000_0000
  {
    CeilingAtLast(c, k);
    MultipleMonotone(0, k, c.plan.stepRate as int);
    if k > 0 {
      CeilingAtLast(c, k - 1);
      NextRate(c, k - 1);
    }
  }

  /** The planned steps, defined without the loop. */
  function Schedule(c: StepController): seq<RateStep>
    requires ValidPlan(c)
  {
    seq(StepTotal(c.plan), k requires 0 <= k < StepTotal(c.plan) => StepAt(c, k))
  }

  method CalculateSteps(c: StepController) returns (r: Result<seq<RateStep>>)
    ensures r.Ok? <==> ValidPlan(c)
    ensures r.Ok? ==> r.value == Schedule(c)
  {
    hide Duration, RateAt, StepTotal;
    var valid := Validate(c);
    if valid.Err? {
      return Err(valid.error);
    }
    var duration := Duration(c);
    var steps: seq<RateStep> := [];
    var stepNumber: int64, currentRate := 1, c.plan.initialRate;
    ScheduleRises(c);
    while true
      invariant 0 <= |steps| < StepTotal(c.plan)
      invariant stepNumber as int == |steps| + 1 && currentRate as int == RateAt(c.plan, |steps|)
      invariant forall k :: 0 <= k < |steps| ==> steps[k] == StepAt(c, k)
      decreases StepTotal(c.plan) - |steps|
    {
      ghost var k := |steps|;
      CeilingAtLast(c, k);
      if currentRate > c.plan.maxRate {
        currentRate := c.plan.maxRate;
      }
      steps := steps + [RateStep(stepNumber, currentRate, duration)];
      if currentRate >= c.plan.maxRate {
        break;
      }
      NextRate(c, k);
      StepNumberFits(c, k + 1);
      if c.plan.maxRate - currentRate < c.plan.stepRate {
        currentRate := c.plan.maxRate;
      } else {
        currentRate := currentRate + c.plan.stepRate;
      }
      stepNumber := stepNumber + 1;
    }
    return Ok(steps);
  }

  // ---------------------------------------------------------------- Run

  /** What the surroundings do at step k: is the context cancelled before or during its wait, does the handler fail? */
  datatype Surroundings = Surroundings(cancelledBefore: nat -> bool, handlerFails: nat -> bool,
                                       cancelledDuring: nat -> bool)

  datatype Ending = Finished | Cancelled | HandlerFailed | Invalid(error: PlanError)

  predicate Interrupted(env: Surroundings, hasHandler: bool, k: nat) {
    env.cancelledBefore(k) || (hasHandler && env.handlerFails(k)) || env.cancelledDuring(k)
  }

  ghost predicate CallsPrefix(c: StepController, calls: seq<(int64, int64)>)
    requires ValidPlan(c)
  {
    && |calls| <= StepTotal(c.plan)
    && forall k :: 0 <= k < |calls| ==> calls[k] == (StepAt(c, k).stepNumber, StepAt(c, k).rate)
  }

  /** Run calls the handler on a prefix of the schedule: up to the first interruption, or all of it. */
  method Run(c: StepController, env: Surroundings, hasHandler: bool)
    returns (calls: seq<(int64, int64)>, ending: Ending)
    ensures ending.Invalid? <==> !ValidPlan(c)
    ensures !ValidPlan(c) ==> calls == []
    ensures ValidPlan(c) ==> CallsPrefix(c, calls)
    ensures ending == Finished && hasHandler ==> |calls| == StepTotal(c.plan)
    ensures ValidPlan(c) ==> (ending == Finished <==>
        forall k :: 0 <= k < StepTotal(c.plan) ==> !Interrupted(env, hasHandler, k))
    ensures forall k :: 0 <= k < |calls| - 1 ==> !Interrupted(env, hasHandler, k)
    ensures !hasHandler ==> calls == []
    ensures ending == HandlerFailed ==> hasHandler && calls != [] && env.handlerFails(|calls| - 1)
    ensures ending == Cancelled && hasHandler ==>
        env.cancelledBefore(|calls|) || (calls != [] && env.cancelledDuring(|calls| - 1))
  {
    hide Duration, RateAt, StepTotal;
    calls := [];
    var valid := Validate(c);
    if valid.Err? {
      return calls, Invalid(valid.error);
    }
    var stepNumber: int64, currentRate := 1, c.plan.initialRate;
    ghost var k := 0;
    ScheduleRises(c);
    while true
      invariant 0 <= k < StepTotal(c.plan)
      invariant stepNumber as int == k + 1 && currentRate as int == RateAt(c.plan, k)
      invariant |calls| == if hasHandler then k else 0
      invariant CallsPrefix(c, calls)
      invariant forall i :: 0 <= i < k ==> !Interrupted(env, hasHandler, i)
      decreases StepTotal(c.plan) - k
    {
      CeilingAtLast(c, k);
      if env.cancelledBefore(stepNumber as int - 1) {
        assert Interrupted(env, hasHandler, k);
        return calls, Cancelled;
      }
      if currentRate > c.plan.maxRate {
        currentRate := c.plan.maxRate;
      }
      if hasHandler {
        calls := calls + [(stepNumber, currentRate)];
        if env.handlerFails(stepNumber as int - 1) {
          assert Interrupted(env, hasHandler, k);
          return calls, HandlerFailed;
        }
      }
      if env.cancelledDuring(stepNumber as int - 1) {
        assert Interrupted(env, hasHandler, k);
        return calls, Cancelled;
      }
      if currentRate >= c.plan.maxRate {
        break;
      }
      NextRate(c, k);
      StepNumberFits(c, k + 1);
      if c.plan.maxRate - currentRate < c.plan.stepRate {
        currentRate := c.plan.maxRate;
      } else {
        currentRate := currentRate + c.plan.stepRate;
      }
      stepNumber := stepNumber + 1;
      k := k + 1;
    }
    return calls, Finished;
  }
}
