/** The poll loops of WatcherEngine (internal/watcher/evaluator.go) as a state machine: what Stop leaves running, and
    what an old loop does to a new one.

    Start and Stop are single steps because they hold `mu` throughout.  A loop's steps are its select, its query and
    the call of whatever handler is registered at that moment.  Parent contexts may be cancelled at any time. */
module EngineLoops {
  import opened Executions
  import opened Telemetry

  /** A query is doomed when its context was cancelled before it began: every request it makes returns that error. */
  datatype LoopPc = Selecting | Querying(doomed: bool) | Delivering(outcome: Outcome) | Exited

  /** `late` counts the snapshots a loop delivered after its context was cancelled. */
  datatype Loop = Loop(pc: LoopPc, cancelled: bool, late: nat)

  /** `delivered` says which loop's snapshot went to which handler; `outcomes` and `own` are what all loops' queries,
      and the newest loop's, came to since the last Start that started a loop. */
  datatype State = State(threshold: int, running: bool, failures: nat, handler: nat, loops: seq<Loop>,
                         delivered: seq<(nat, nat)>, outcomes: seq<Outcome>, own: seq<Outcome>)

  datatype Step =
    | Start
    | Stop
    | SetHandler(h: nat)
    | CancelParent(l: nat)
    | TakeTick(l: nat)
    | TakeDone(l: nat)
    | Query(l: nat, outcome: Outcome)
    | Deliver(l: nat)

  predicate Polling(loop: Loop) {
    loop.pc.Querying? || loop.pc.Delivering?
  }

  predicate Newest(s: State, l: nat) {
    l == |s.loops| - 1
  }

  predicate Enabled(s: State, step: Step) {
    match step
    case Start => true
    case Stop => s.running ==> s.loops != []
    case SetHandler(_) => true
    case CancelParent(l) => l < |s.loops|
    case TakeTick(l) => l < |s.loops| && s.loops[l].pc == Selecting
    case TakeDone(l) => l < |s.loops| && s.loops[l].pc == Selecting && s.loops[l].cancelled
    case Query(l, outcome) => l < |s.loops| && s.loops[l].pc.Querying? && (s.loops[l].pc.doomed ==> outcome.Failed?)
    case Deliver(l) => l < |s.loops| && s.loops[l].pc.Delivering?
  }

  function Moved(s: State, l: nat, pc: LoopPc): State
    requires l < |s.loops|
  {
    s.(loops := s.loops[l := s.loops[l].(pc := pc)])
  }

  function Cancelled(s: State, l: nat): State
    requires l < |s.loops|
  {
    s.(loops := s.loops[l := s.loops[l].(cancelled := true)])
  }

  /** An answer resets the counter that all loops share; a failure is forwarded once the counter has come to the
      threshold. */
  function QueryAfter(s: State, l: nat, outcome: Outcome): State
    requires l < |s.loops|
  {
    var count := if outcome.Failed? then s.failures + 1 else 0;
    var pc := if outcome.Failed? && count < s.threshold then Selecting else Delivering(outcome);
    Moved(s, l, pc).(failures := count, outcomes := s.outcomes + [outcome],
                     own := if Newest(s, l) then s.own + [outcome] else s.own)
  }

  function After(s: State, step: Step): State
    requires Enabled(s, step)
  {
    match step
    case Start =>
      if s.running then s
      else s.(running := true, failures := 0, loops := s.loops + [Loop(Selecting, false, 0)], outcomes := [], own := [])
    case Stop => if s.running then Cancelled(s, |s.loops| - 1).(running := false) else s
    case SetHandler(h) => s.(handler := h)
    case CancelParent(l) => Cancelled(s, l)
    case TakeTick(l) => Moved(s, l, Querying(s.loops[l].cancelled))
    case TakeDone(l) => Moved(s, l, Exited)
    case Query(l, outcome) => QueryAfter(s, l, outcome)
    case Deliver(l) =>
      var loop := s.loops[l];
      s.(loops := s.loops[l := loop.(pc := Selecting, late := loop.late + if loop.cancelled then 1 else 0)],
         delivered := s.delivered + [(l, s.handler)])
  }

  predicate Initial(s: State) {
    !s.running && s.failures == 0 && s.loops == [] && s.delivered == [] && s.outcomes == [] && s.own == []
  }

  ghost predicate Next(s: State, step: Step, s': State) {
    Enabled(s, step) && s' == After(s, step)
  }

  ghost predicate IsExecution(states: seq<State>, steps: seq<Step>) {
    IsTrace(Next, states, steps) && Initial(states[0])
  }

  // ---------------------------------------------------------------- hazards

  /** A loop is told to stop in the middle of a poll; a told loop's select takes the ticker's case although the
      context's is ready too; a loop that is no longer the newest comes to the end of a query. */
  datatype Hazard = CutMidPoll | LateTick | OldQuery

  predicate CutsMidPoll(s: State, step: Step) {
    || (step.Stop? && s.running && s.loops != [] && Polling(s.loops[|s.loops| - 1]))
    || (step.CancelParent? && step.l < |s.loops| && Polling(s.loops[step.l]))
  }

  predicate TicksLate(s: State, step: Step) {
    step.TakeTick? && step.l < |s.loops| && s.loops[step.l].cancelled
  }

  predicate QueriesOld(s: State, step: Step) {
    step.Query? && !Newest(s, step.l)
  }

  ghost predicate Permitted(s: State, step: Step, hazards: set<Hazard>) {
    && (CutsMidPoll(s, step) ==> CutMidPoll in hazards)
    && (TicksLate(s, step) ==> LateTick in hazards)
    && (QueriesOld(s, step) ==> OldQuery in hazards)
  }

  /** An execution of an engine with this threshold in which no hazard but these occurs. */
  ghost predicate Admitted(states: seq<State>, steps: seq<Step>, threshold: int, hazards: set<Hazard>) {
    && |states| == |steps| + 1 && IsExecution(states, steps) && states[0].threshold == threshold
    && forall k :: 0 <= k < |steps| ==> Permitted(states[k], steps[k], hazards)
  }

  // ---------------------------------------------------------------- what every step keeps

  /** Only a running engine's newest loop may be uncancelled; before its cancel a loop is late by nothing; the counter
      is the number of failures in a row, whichever loops they came from. */
  ghost predicate Sound(s: State) {
    && (s.running ==> s.loops != [])
    && (forall l :: 0 <= l < |s.loops| && !s.loops[l].cancelled ==>
         s.running && Newest(s, l) && s.loops[l].late == 0)
    && s.failures == TrailingFailures(s.outcomes)
  }

  lemma SoundKept(s: State, step: Step)
    requires Enabled(s, step) && Sound(s)
    ensures Sound(After(s, step)) && After(s, step).threshold == s.threshold
  {
    hide TrailingFailures;
    assert TrailingFailures([]) == 0 by { NoFailures(); }
    if step.Query? {
      TrailingAppend(s.outcomes, step.outcome);
    }
  }

  lemma NoFailures()
    ensures TrailingFailures([]) == 0
  {
  }

  /** Late deliveries made, and the one that may still come of a poll under way. */
  function Owed(loop: Loop): nat {
    loop.late + if Polling(loop) then 1 else 0
  }

  ghost predicate Prompt(s: State) {
    forall l :: 0 <= l < |s.loops| ==> Owed(s.loops[l]) <= 1
  }

  lemma PromptKept(s: State, step: Step)
    requires Enabled(s, step) && Sound(s) && Prompt(s) && !TicksLate(s, step)
    ensures Prompt(After(s, step))
  {
    hide TrailingFailures;
  }

  /** A loop told to stop is between polls and has delivered nothing since. */
  ghost predicate Silent(s: State) {
    forall l :: 0 <= l < |s.loops| && s.loops[l].cancelled ==> s.loops[l].late == 0 && !Polling(s.loops[l])
  }

  lemma SilentKept(s: State, step: Step)
    requires Enabled(s, step) && Sound(s) && Silent(s) && !TicksLate(s, step) && !CutsMidPoll(s, step)
    ensures Silent(After(s, step))
  {
    hide TrailingFailures;
  }

  /** The counter is the newest loop's own, and a breach it is about to deliver rests on its own failures. */
  ghost predicate OwnCount(s: State) {
    && s.own == s.outcomes
    && (s.loops != [] && s.loops[|s.loops| - 1].pc.Delivering? && s.loops[|s.loops| - 1].pc.outcome.Failed? ==>
         s.failures >= s.threshold)
  }

  lemma OwnCountKept(s: State, step: Step)
    requires Enabled(s, step) && OwnCount(s) && !QueriesOld(s, step)
    ensures OwnCount(After(s, step))
  {
  }

  /** What the newest loop is about to deliver is what its own last query came to. */
  ghost predicate DeliversLast(s: State) {
    s.loops != [] && s.loops[|s.loops| - 1].pc.Delivering? ==>
      s.own != [] && s.own[|s.own| - 1] == s.loops[|s.loops| - 1].pc.outcome
  }

  lemma DeliversLastKept(s: State, step: Step)
    requires Enabled(s, step) && DeliversLast(s)
    ensures DeliversLast(After(s, step))
  {
  }

  /** An old loop's query can come to its end only if the loop was told in mid-poll or took a tick later. */
  predicate Overlapping(hazards: set<Hazard>) {
    OldQuery in hazards && (CutMidPoll in hazards || LateTick in hazards)
  }

  lemma SilentIsNew(s: State, step: Step)
    requires Enabled(s, step) && Sound(s) && Silent(s)
    ensures !QueriesOld(s, step)
  {
    hide TrailingFailures;
  }

  ghost predicate Kept(s: State, threshold: int, hazards: set<Hazard>) {
    && s.threshold == threshold && Sound(s) && DeliversLast(s)
    && (LateTick !in hazards ==> Prompt(s))
    && (LateTick !in hazards && CutMidPoll !in hazards ==> Silent(s))
    && (!Overlapping(hazards) ==> OwnCount(s))
  }

  lemma {:induction false} AlwaysKept(states: seq<State>, steps: seq<Step>, threshold: int, hazards: set<Hazard>,
                                      k: nat)
    requires Admitted(states, steps, threshold, hazards) && k < |states|
    ensures Kept(states[k], threshold, hazards)
  {
    hide Enabled, After, Sound, Prompt, Silent, OwnCount, DeliversLast, TicksLate, CutsMidPoll, QueriesOld;
    if k == 0 {
      InitialKept(states[0], hazards);
    } else {
      AlwaysKept(states, steps, threshold, hazards, k - 1);
      var s, step := states[k - 1], steps[k - 1];
      assert Next(s, step, states[k - 1 + 1]) && Permitted(s, step, hazards);
      SoundKept(s, step);
      DeliversLastKept(s, step);
      if LateTick !in hazards {
        PromptKept(s, step);
        if CutMidPoll !in hazards {
          SilentKept(s, step);
          SilentIsNew(s, step);
        }
      }
      if !Overlapping(hazards) {
        OwnCountKept(s, step);
      }
    }
  }

  lemma InitialKept(s: State, hazards: set<Hazard>)
    requires Initial(s)
    ensures Kept(s, s.threshold, hazards)
  {
  }

  /** In every execution at most one loop has not been told to stop, the newest one of a running engine. */
  lemma OneLoopLeft(states: seq<State>, steps: seq<Step>, threshold: int, hazards: set<Hazard>, k: nat, l: nat)
    requires Admitted(states, steps, threshold, hazards)
    requires k < |states| && l < |states[k].loops| && !states[k].loops[l].cancelled
    ensures states[k].running && l == |states[k].loops| - 1
  {
    hide Admitted;
    AlwaysKept(states, steps, threshold, hazards, k);
  }

  /** In every execution the counter holds the failures in a row since the last Start that started a loop, over all
      loops alike. */
  lemma CounterIsShared(states: seq<State>, steps: seq<Step>, threshold: int, hazards: set<Hazard>, k: nat, n: nat)
    requires Admitted(states, steps, threshold, hazards) && k < |states|
    ensures states[k].failures == TrailingFailures(states[k].outcomes)
    ensures var polls := states[k].outcomes;
      states[k].failures >= n <==> n <= |polls| && forall i :: |polls| - n <= i < |polls| ==> polls[i].Failed?
  {
    hide Admitted;
    AlwaysKept(states, steps, threshold, hazards, k);
    TrailingMeansAllFailed(states[k].outcomes, n);
  }

  // ---------------------------------------------------------------- making executions

  /** One more step of an execution that permits it. */
  lemma Extend(states: seq<State>, steps: seq<Step>, threshold: int, hazards: set<Hazard>, step: Step)
    returns (states': seq<State>, steps': seq<Step>)
    requires Admitted(states, steps, threshold, hazards)
    requires Enabled(states[|steps|], step) && Permitted(states[|steps|], step, hazards)
    ensures Admitted(states', steps', threshold, hazards)
    ensures states' == states + [After(states[|steps|], step)] && steps' == steps + [step]
    ensures |states'| == |steps'| + 1 && states'[|steps'|] == After(states[|steps|], step)
  {
    hide Enabled, After, Permitted, Initial;
    TraceExtended(Next, states, steps, step, After(states[|steps|], step));
    states', steps' := states + [After(states[|steps|], step)], steps + [step];
  }

  function Fresh(threshold: int): State {
    State(threshold, false, 0, 0, [], [], [], [])
  }

  lemma Begin(threshold: int, hazards: set<Hazard>) returns (states: seq<State>, steps: seq<Step>)
    ensures Admitted(states, steps, threshold, hazards) && states == [Fresh(threshold)] && steps == []
  {
    states, steps := [Fresh(threshold)], [];
  }

  lemma Lengths(states: seq<State>, steps: seq<Step>, threshold: int, hazards: set<Hazard>)
    requires Admitted(states, steps, threshold, hazards)
    ensures |states| == |steps| + 1
  {
  }

  /** Loop l polls and fails until its failure is forwarded. */
  lemma {:induction false} FailsUntilForwarded(states0: seq<State>, steps0: seq<Step>, threshold: int,
                                               hazards: set<Hazard>, l: nat)
    returns (states: seq<State>, steps: seq<Step>)
    requires Admitted(states0, steps0, threshold, hazards)
    requires var s := states0[|steps0|];
      && s.threshold == threshold && l < |s.loops| && s.loops[l].pc == Selecting
      && (s.loops[l].cancelled ==> LateTick in hazards) && (!Newest(s, l) ==> OldQuery in hazards)
    ensures Admitted(states, steps, threshold, hazards) && |states| == |steps| + 1
    ensures var s, s' := states0[|steps0|], states[|steps|];
      && s'.loops == s.loops[l := s.loops[l].(pc := Delivering(Failed(0)))] && s'.handler == s.handler
      && s'.threshold == threshold
      && s'.failures == (if s.failures + 1 >= threshold then s.failures + 1 else threshold)
      && (Newest(s, l) ==> s'.failures - s.failures == |s'.own| - |s.own|)
    decreases threshold - states0[|steps0|].failures
  {
    hide Admitted;
    Lengths(states0, steps0, threshold, hazards);
    var s := states0[|steps0|];
    states, steps := Extend(states0, steps0, threshold, hazards, TakeTick(l));
    states, steps := Extend(states, steps, threshold, hazards, Query(l, Failed(0)));
    assert states[|steps|].loops == s.loops[l := states[|steps|].loops[l]];
    if s.failures + 1 < threshold {
      assert states[|steps|].loops[l] == s.loops[l];
      states, steps := FailsUntilForwarded(states, steps, threshold, hazards, l);
    }
  }

  // ---------------------------------------------------------------- what a told loop still delivers

  ghost predicate LateAtMost(states: seq<State>, n: nat) {
    forall k, l :: 0 <= k < |states| && 0 <= l < |states[k].loops| ==> states[k].loops[l].late <= n
  }

  lemma TooLate(states: seq<State>, n: nat, k: nat, l: nat)
    requires k < |states| && l < |states[k].loops| && states[k].loops[l].late > n
    ensures !LateAtMost(states, n)
  {
  }

  function AnyAnswer(): Outcome {
    Answered(MetricSnapshot(0, 0.0, 0.0, 0.0, 1.0))
  }

  /** Stop comes back while a query is under way, and a handler registered afterwards gets its answer. */
  lemma StopDoesNotWait(threshold: int) returns (states: seq<State>, steps: seq<Step>)
    ensures Admitted(states, steps, threshold, {CutMidPoll})
    ensures |steps| == 6 && steps[2] == Stop && steps[3] == SetHandler(1)
    ensures states[3].loops == [Loop(Querying(false), true, 0)] && states[2].handler == 0
    ensures states[6].delivered == [(0, 1)] && states[6].loops == [Loop(Selecting, true, 1)]
  {
    hide Admitted;
    states, steps := Begin(threshold, {CutMidPoll});
    states, steps := Extend(states, steps, threshold, {CutMidPoll}, Start);
    states, steps := Extend(states, steps, threshold, {CutMidPoll}, TakeTick(0));
    states, steps := Extend(states, steps, threshold, {CutMidPoll}, Stop);
    states, steps := Extend(states, steps, threshold, {CutMidPoll}, SetHandler(1));
    states, steps := Extend(states, steps, threshold, {CutMidPoll}, Query(0, AnyAnswer()));
    states, steps := Extend(states, steps, threshold, {CutMidPoll}, Deliver(0));
  }

  lemma FewerHazards(states: seq<State>, steps: seq<Step>, threshold: int, few: set<Hazard>, hazards: set<Hazard>)
    requires Admitted(states, steps, threshold, few) && few <= hazards
    ensures Admitted(states, steps, threshold, hazards)
  {
    hide CutsMidPoll, TicksLate, QueriesOld, IsExecution;
  }

  /** A told loop that keeps taking ticks fails its way to the threshold and delivers breaches, one after another. */
  lemma LateBreaches(threshold: int) returns (states: seq<State>, steps: seq<Step>)
    ensures Admitted(states, steps, threshold, {LateTick}) && !LateAtMost(states, 1) && !LateAtMost(states, 0)
  {
    hide Admitted, LateAtMost;
    states, steps := Begin(threshold, {LateTick});
    states, steps := Extend(states, steps, threshold, {LateTick}, Start);
    states, steps := Extend(states, steps, threshold, {LateTick}, Stop);
    states, steps := FailsUntilForwarded(states, steps, threshold, {LateTick}, 0);
    states, steps := Extend(states, steps, threshold, {LateTick}, Deliver(0));
    states, steps := FailsUntilForwarded(states, steps, threshold, {LateTick}, 0);
    states, steps := Extend(states, steps, threshold, {LateTick}, Deliver(0));
    TooLate(states, 1, |steps|, 0);
    TooLate(states, 0, |steps|, 0);
  }

  /** A loop told to stop delivers nothing more in every execution exactly when no loop is told in the middle of a poll
      and no told loop takes a tick, whatever the threshold. */
  lemma NothingLateExactlyWhen(threshold: int, hazards: set<Hazard>)
    ensures (forall states, steps :: Admitted(states, steps, threshold, hazards) ==> LateAtMost(states, 0))
       <==> CutMidPoll !in hazards && LateTick !in hazards
  {
    hide Admitted, LateAtMost;
    if CutMidPoll in hazards {
      var states, steps := StopDoesNotWait(threshold);
      Lengths(states, steps, threshold, {CutMidPoll});
      FewerHazards(states, steps, threshold, {CutMidPoll}, hazards);
      TooLate(states, 0, 6, 0);
    } else if LateTick in hazards {
      var states, steps := LateBreaches(threshold);
      FewerHazards(states, steps, threshold, {LateTick}, hazards);
    } else {
      forall states, steps | Admitted(states, steps, threshold, hazards) ensures LateAtMost(states, 0) {
        SilentIsNeverLate(states, steps, threshold, hazards);
      }
    }
  }

  lemma SilentIsNeverLate(states: seq<State>, steps: seq<Step>, threshold: int, hazards: set<Hazard>)
    requires Admitted(states, steps, threshold, hazards) && CutMidPoll !in hazards && LateTick !in hazards
    ensures LateAtMost(states, 0)
  {
    hide Admitted;
    forall k, l | 0 <= k < |states| && 0 <= l < |states[k].loops| ensures states[k].loops[l].late <= 0 {
      AlwaysKept(states, steps, threshold, hazards, k);
    }
  }

  /** It delivers at most one more snapshot in every execution exactly when no told loop takes a tick. */
  lemma AtMostOneLateExactlyWhen(threshold: int, hazards: set<Hazard>)
    ensures (forall states, steps :: Admitted(states, steps, threshold, hazards) ==> LateAtMost(states, 1))
       <==> LateTick !in hazards
  {
    hide Admitted, LateAtMost;
    if LateTick in hazards {
      var states, steps := LateBreaches(threshold);
      FewerHazards(states, steps, threshold, {LateTick}, hazards);
    } else {
      forall states, steps | Admitted(states, steps, threshold, hazards) ensures LateAtMost(states, 1) {
        PromptIsTimely(states, steps, threshold, hazards);
      }
    }
  }

  lemma PromptIsTimely(states: seq<State>, steps: seq<Step>, threshold: int, hazards: set<Hazard>)
    requires Admitted(states, steps, threshold, hazards) && LateTick !in hazards
    ensures LateAtMost(states, 1)
  {
    hide Admitted;
    forall k, l | 0 <= k < |states| && 0 <= l < |states[k].loops| ensures states[k].loops[l].late <= 1 {
      AlwaysKept(states, steps, threshold, hazards, k);
      assert Owed(states[k].loops[l]) <= 1;
    }
  }

  // ---------------------------------------------------------------- what an old loop does to a new one

  /** The counter is at all times the newest loop's own failures in a row. */
  ghost predicate CountsOwn(states: seq<State>) {
    forall k :: 0 <= k < |states| ==> states[k].failures == TrailingFailures(states[k].own)
  }

  /** A breach the newest loop is about to deliver rests on threshold failures in a row of its own. */
  ghost predicate BreachesOwn(states: seq<State>) {
    forall k :: 0 <= k < |states| && states[k].loops != [] ==> BreachOwn(states[k])
  }

  predicate BreachOwn(s: State)
    requires s.loops != []
  {
    var pc := s.loops[|s.loops| - 1].pc;
    pc.Delivering? && pc.outcome.Failed? ==> TrailingFailures(s.own) >= s.threshold
  }

  /** The hazards that let an old loop's query end after a new loop has begun: told in mid-poll, or by a later tick. */
  function Meddling(midPoll: bool): set<Hazard> {
    {OldQuery, if midPoll then CutMidPoll else LateTick}
  }

  /** Start begins a second loop, and then the first one's query fails. */
  lemma Overlap(threshold: int, midPoll: bool) returns (states: seq<State>, steps: seq<Step>)
    ensures Admitted(states, steps, threshold, Meddling(midPoll)) && |states| == |steps| + 1
    ensures var s := states[|steps|];
      && |s.loops| == 2 && s.loops[1] == Loop(Selecting, false, 0) && s.threshold == threshold
      && s.failures == 1 && s.own == []
  {
    hide Admitted;
    var hazards := Meddling(midPoll);
    states, steps := Begin(threshold, hazards);
    states, steps := Extend(states, steps, threshold, hazards, Start);
    if midPoll {
      states, steps := Extend(states, steps, threshold, hazards, TakeTick(0));
      states, steps := Extend(states, steps, threshold, hazards, Stop);
      states, steps := Extend(states, steps, threshold, hazards, Start);
    } else {
      states, steps := Extend(states, steps, threshold, hazards, Stop);
      states, steps := Extend(states, steps, threshold, hazards, Start);
      states, steps := Extend(states, steps, threshold, hazards, TakeTick(0));
    }
    states, steps := Extend(states, steps, threshold, hazards, Query(0, Failed(0)));
  }

  /** The counter is the newest loop's own in every execution exactly when no query of an older loop can end after it
      began. */
  lemma CountsOwnExactlyWhen(threshold: int, hazards: set<Hazard>)
    ensures (forall states, steps :: Admitted(states, steps, threshold, hazards) ==> CountsOwn(states))
       <==> !Overlapping(hazards)
  {
    hide Admitted, CountsOwn;
    if Overlapping(hazards) {
      var states, steps := Overlap(threshold, CutMidPoll in hazards);
      FewerHazards(states, steps, threshold, Meddling(CutMidPoll in hazards), hazards);
      MiscountedBy(states, |steps|);
    } else {
      forall states, steps | Admitted(states, steps, threshold, hazards) ensures CountsOwn(states) {
        AllCountOwn(states, steps, threshold, hazards);
      }
    }
  }

  lemma MiscountedBy(states: seq<State>, k: nat)
    requires k < |states| && states[k].failures == 1 && states[k].own == []
    ensures !CountsOwn(states)
  {
  }

  lemma AllCountOwn(states: seq<State>, steps: seq<Step>, threshold: int, hazards: set<Hazard>)
    requires Admitted(states, steps, threshold, hazards) && !Overlapping(hazards)
    ensures CountsOwn(states)
  {
    hide Admitted, Overlapping;
    forall k | 0 <= k < |states| ensures states[k].failures == TrailingFailures(states[k].own) {
      AlwaysKept(states, steps, threshold, hazards, k);
    }
  }

  lemma {:induction false} TrailingWithin(polls: seq<Outcome>)
    ensures TrailingFailures(polls) <= |polls|
  {
    if polls != [] {
      TrailingWithin(polls[..|polls| - 1]);
    }
  }

  /** A breach the newest loop delivers rests on its own failures in every execution exactly when no query of an older
      loop can end after it began, or the threshold is at most 1: otherwise a new run is cut after threshold - 1
      failures. */
  lemma BreachesOwnExactlyWhen(threshold: int, hazards: set<Hazard>)
    ensures (forall states, steps :: Admitted(states, steps, threshold, hazards) ==> BreachesOwn(states))
       <==> !Overlapping(hazards) || threshold <= 1
  {
    hide Admitted, BreachesOwn;
    if Overlapping(hazards) && threshold > 1 {
      var states, steps := CutEarly(threshold, CutMidPoll in hazards);
      FewerHazards(states, steps, threshold, Meddling(CutMidPoll in hazards), hazards);
    } else {
      forall states, steps | Admitted(states, steps, threshold, hazards) ensures BreachesOwn(states) {
        AllBreachOwn(states, steps, threshold, hazards);
      }
    }
  }

  lemma CutEarly(threshold: int, midPoll: bool) returns (states: seq<State>, steps: seq<Step>)
    requires threshold > 1
    ensures Admitted(states, steps, threshold, Meddling(midPoll)) && !BreachesOwn(states)
  {
    hide Admitted;
    states, steps := Overlap(threshold, midPoll);
    states, steps := FailsUntilForwarded(states, steps, threshold, Meddling(midPoll), 1);
    TrailingWithin(states[|steps|].own);
    assert !BreachOwn(states[|steps|]);
  }

  lemma AllBreachOwn(states: seq<State>, steps: seq<Step>, threshold: int, hazards: set<Hazard>)
    requires Admitted(states, steps, threshold, hazards) && (!Overlapping(hazards) || threshold <= 1)
    ensures BreachesOwn(states)
  {
    hide Admitted, Overlapping;
    forall k | 0 <= k < |states| && states[k].loops != [] ensures BreachOwn(states[k]) {
      AlwaysKept(states, steps, threshold, hazards, k);
    }
  }
}
