/** How a run winds down: nothing is analysed under live traffic, and every finisher ends. */
module ExperimentProgress {
  import opened CapacityModel
  import opened Executions
  import opened Lifecycle
  import opened ExperimentProtocol
  import opened ExperimentFrames
  import opened ExperimentSafety
  import opened ExperimentLaunch

  /** No new stress traffic: the stress context is over or the engine call has returned. */
  predicate Quiet(s: State, r: Run) {
    StressEnded(s, r) || r.stressDone
  }

  // ---------------------------------------------------------------- flags only rise, measures only fall

  function FinisherRank(pc: FinisherPc): nat {
    match pc
    case FinisherOff => 20
    case Polling => 19
    case Waiting => 18
    case HaltingEngine => 17
    case Rereading => 16
    case EnteringStopping => 15
    case Recovering => 14
    case HaltingWatcher => 13
    case EnteringAnalyzing => 12
    case Loading => 11
    case EnteringReporting(_, _) => 10
    case Compiling(_, _) => 9
    case SavingReport(_) => 8
    case EnteringCompleted => 7
    case Halting(_) => 6
    case Aborting(_) => 5
    case Releasing => 2
    case CancellingContext => 1
    case Finished => 0
  }

  function EngineRank(pc: EnginePc): nat {
    match pc
    case EngineOff => 4
    case Generating => 3
    case CuttingStress => 2
    case EngineSignals => 2
    case ClosingDone => 1
    case EngineClosed => 0
  }

  function SignalRank(pc: SignalPc): nat {
    match pc
    case Unsignalled => 3
    case ErrorSent => 2
    case StressCancelled => 1
    case Signalled => 0
  }

  /** Steps a run's own goroutines still have to take. */
  function Remaining(r: Run): nat {
    FinisherRank(r.finisher) + EngineRank(r.engine) + SignalRank(r.signal)
  }

  predicate Rises(r: Run, r': Run) {
    && (r.stressCut ==> r'.stressCut) && (r.expCut ==> r'.expCut) && (r.stressDone ==> r'.stressDone)
    && Remaining(r') <= Remaining(r)
    && (r.engine == EngineClosed && r.stressDone ==> r'.engine == EngineClosed)
    && (r'.engine == EngineClosed && r.engine != EngineClosed ==> r'.stressDone)
    && (r.engine != EngineOff ==> r'.engine != EngineOff)
  }

  predicate Own(step: Step, i: nat) {
    (step.Finish? || step.Engine? || step.Signal?) && step.i == i
  }

  lemma EngineRises(r: Run, result: EngineResult)
    requires r.engine !in {EngineOff, EngineClosed}
    ensures Rises(r, EngineRun(r, result)) && Remaining(EngineRun(r, result)) < Remaining(r)
  {
  }

  lemma SignalRises(r: Run, reason: string)
    requires r.signal != Signalled
    ensures Rises(r, SignalRun(r, reason)) && Remaining(SignalRun(r, reason)) < Remaining(r)
  {
  }

  lemma FinishRises(s: State, step: Step)
    requires FinishEnabled(s, step)
    ensures Rises(s.runs[step.i], FinishRun(s, step)) && Remaining(FinishRun(s, step)) < Remaining(s.runs[step.i])
  {
    hide FinishVerdict, Stored;
  }

  lemma StartRises(s: State, step: Step)
    requires Enabled(s, step) && step.Start? && Shaped(s.runs[step.i])
    ensures s.runs[step.i].engine == EngineOff ==> Rises(s.runs[step.i], StartRun(s, step))
  {
    hide StartVerdict, StartNext;
  }

  /** The engine starts with the launch and has closed only if it said so on stressDone. */
  ghost predicate EngineFollows(r: Run) {
    && (Launched(r) <==> r.engine != EngineOff)
    && (r.engine == EngineClosed ==> r.stressDone)
  }

  ghost predicate EnginesFollow(runs: seq<Run>) {
    forall i :: 0 <= i < |runs| ==> EngineFollows(runs[i]) && Shaped(runs[i])
  }

  lemma RunRises(s: State, step: Step, j: nat)
    requires Enabled(s, step) && EnginesFollow(s.runs) && j < |s.runs|
    ensures j < |After(s, step).runs| && Rises(s.runs[j], After(s, step).runs[j])
    ensures Own(step, j) ==> Remaining(After(s, step).runs[j]) < Remaining(s.runs[j])
    ensures s.shutdown ==> After(s, step).shutdown
  {
    hide StartRun, FinishRun, EngineRun, SignalRun, Remaining, After;
    assert EngineFollows(s.runs[j]) && Shaped(s.runs[j]);
    if s.shutdown {
      ShutdownStays(s, step);
    }
    match step
    case Start(_, _, _, _, _) =>
      StartFrame(s, step);
      if j == step.i {
        StartRises(s, step);
      }
    case Finish(_, _, _, _, _) =>
      FinishFrame(s, step);
      if j == step.i {
        FinishRises(s, step);
      }
    case BeginStart(_) => BeginStartFrame(s, step);
    case Engine(i, result) =>
      QuietRunsAre(s, step);
      if j == i {
        EngineRises(s.runs[i], result);
      }
    case Signal(i, reason) =>
      QuietRunsAre(s, step);
      if j == i {
        SignalRises(s.runs[i], reason);
      }
    case _ =>
      QuietRunsAre(s, step);
      OthersRise(s, step, j);
  }

  lemma ShutdownStays(s: State, step: Step)
    requires Enabled(s, step) && s.shutdown
    ensures After(s, step).shutdown
  {
    hide StartRun, FinishRun, EngineRun, WatchRun, SignalRun, StopWrite, HandleNext, StopNext, ApplyWrite, Logged;
    hide HandleObservations, FinishReports, StartVerdict, FinishVerdict, StopRuns, HandleRuns, StartActive,
        FinishActive, NewRun;
  }

  /** A watcher's steps and the cancels of stoppers, handlers and a shutdown. */
  lemma OthersRise(s: State, step: Step, j: nat)
    requires Enabled(s, step) && j < |s.runs|
    requires !step.Start? && !step.Finish? && !step.BeginStart? && !step.Engine? && !step.Signal?
    ensures j < |QuietRuns(s, step)| && Rises(s.runs[j], QuietRuns(s, step)[j])
    ensures QuietRuns(s, step)[j].engine == s.runs[j].engine && QuietRuns(s, step)[j].signal == s.runs[j].signal
    ensures QuietRuns(s, step)[j].stressDone == s.runs[j].stressDone
    ensures QuietRuns(s, step)[j].startErr == s.runs[j].startErr
  {
    hide IsSlaBreached, FinisherRank, EngineRank, SignalRank;
  }

  lemma EngineFollowsKept(s: State, step: Step)
    requires Enabled(s, step) && EnginesFollow(s.runs)
    ensures EnginesFollow(After(s, step).runs)
  {
    hide Enabled, After, EngineFollows, Shaped, Rises, Remaining;
    var runs' := After(s, step).runs;
    forall j | 0 <= j < |runs'| ensures EngineFollows(runs'[j]) && Shaped(runs'[j]) {
      if step.BeginStart? && j == |s.runs| {
        BeginStartFrame(s, step);
        NewRunFollows(step.id);
      } else {
        CoreOf(s, step, j);
        RunRises(s, step, j);
        EngineFollowsRun(s, step, j);
      }
    }
  }

  lemma NewRunFollows(id: string)
    ensures EngineFollows(NewRun(id)) && Shaped(NewRun(id))
  {
  }

  lemma EngineFollowsRun(s: State, step: Step, j: nat)
    requires Enabled(s, step) && EnginesFollow(s.runs) && j < |s.runs| && j < |After(s, step).runs|
    requires Rises(s.runs[j], After(s, step).runs[j])
    ensures EngineFollows(After(s, step).runs[j]) && Shaped(After(s, step).runs[j])
  {
    hide FinishRun, Remaining, StartVerdict, FinishVerdict, QuietRuns, EngineRun, SignalRun;
    assert EngineFollows(s.runs[j]) && Shaped(s.runs[j]);
    match step
    case Start(i, _, _, _, _) =>
      StartFrame(s, step);
    case Finish(i, _, _, _, _) =>
      FinishFrame(s, step);
      if i == j {
        FinishToken(s, step);
        FinishKeepsEngine(s, step);
      }
    case Engine(i, result) =>
      if i == j {
        EngineKeepsRest(s.runs[i], result);
      }
    case _ => CoreEngine(s, step, j);
  }

  lemma FinishKeepsEngine(s: State, step: Step)
    requires FinishEnabled(s, step)
    ensures FinishRun(s, step).engine == s.runs[step.i].engine
    ensures FinishRun(s, step).stressDone == s.runs[step.i].stressDone
  {
    hide FinishNext, TakesError;
  }

  lemma EngineKeepsRest(r: Run, result: EngineResult)
    requires r.engine !in {EngineOff, EngineClosed}
    ensures var r' := EngineRun(r, result);
      && r'.engine != EngineOff && r'.finisher == r.finisher && r'.starter == r.starter
        && (r'.engine == EngineClosed ==> r'.stressDone)
  {
  }

  lemma CoreEngine(s: State, step: Step, j: nat)
    requires Enabled(s, step) && j < |s.runs|
    requires !step.Start? && !step.Finish? && !step.Engine?
    ensures j < |After(s, step).runs|
    ensures var r, r' := s.runs[j], After(s, step).runs[j];
      r'.engine == r.engine && r'.stressDone == r.stressDone && r'.finisher == r.finisher && r'.starter == r.starter
  {
    hide EngineRun, QuietRuns, After;
    if step.BeginStart? {
      BeginStartFrame(s, step);
    } else {
      QuietRunsAre(s, step);
      QuietFrame(s, step);
      assert SameCore(After(s, step).runs[j], s.runs[j]);
      if step.Signal? {
        SignalKeepsRest(s, step, j);
      } else {
        OthersRise(s, step, j);
      }
    }
  }

  lemma SignalKeepsRest(s: State, step: Step, j: nat)
    requires Enabled(s, step) && step.Signal? && j < |s.runs|
    ensures j < |QuietRuns(s, step)|
    ensures var r, r' := s.runs[j], QuietRuns(s, step)[j];
      r'.engine == r.engine && r'.stressDone == r.stressDone && r'.finisher == r.finisher && r'.starter == r.starter
  {
  }

  // ---------------------------------------------------------------- analysis happens in the quiet

  /** The success path of finishExperiment. */
  predicate SuccessPath(pc: FinisherPc) {
    || pc in {HaltingEngine, Rereading, EnteringStopping, Recovering, HaltingWatcher, EnteringAnalyzing, Loading,
      EnteringCompleted}
    || pc.EnteringReporting? || pc.Compiling? || pc.SavingReport?
  }

  /** A finisher is on the success path only after traffic generation stopped. */
  ghost predicate WoundDown(s: State) {
    forall i :: 0 <= i < |s.runs| && SuccessPath(s.runs[i].finisher) ==> Quiet(s, s.runs[i])
  }

  lemma QuietStays(s: State, step: Step, j: nat)
    requires Enabled(s, step) && EnginesFollow(s.runs) && j < |s.runs| && Quiet(s, s.runs[j])
    ensures j < |After(s, step).runs| && Quiet(After(s, step), After(s, step).runs[j])
  {
    hide After, Enabled, EnginesFollow, Remaining;
    RunRises(s, step, j);
  }

  lemma SuccessEntered(s: State, step: Step)
    requires FinishEnabled(s, step) && SuccessPath(FinishNext(s, step)) && !SuccessPath(s.runs[step.i].finisher)
    ensures Quiet(s, s.runs[step.i])
  {
    hide FinishVerdict, Stored;
  }

  lemma WoundDownKept(s: State, step: Step)
    requires Enabled(s, step) && EnginesFollow(s.runs) && WoundDown(s)
    ensures WoundDown(After(s, step))
  {
    hide After, Quiet, EnginesFollow, SuccessPath, FinishNext, FinishRun, Enabled;
    var s' := After(s, step);
    forall j | 0 <= j < |s'.runs| && SuccessPath(s'.runs[j].finisher) ensures Quiet(s', s'.runs[j]) {
      if step.BeginStart? && j == |s.runs| {
        BeginStartFrame(s, step);
        NotSuccess();
      } else {
        CoreOf(s, step, j);
        SuccessWasQuiet(s, step, j);
        QuietStays(s, step, j);
      }
    }
  }

  lemma NotSuccess()
    ensures !SuccessPath(FinisherOff) && !SuccessPath(Polling)
  {
  }

  lemma SuccessWasQuiet(s: State, step: Step, j: nat)
    requires Enabled(s, step) && WoundDown(s) && j < |s.runs| && j < |After(s, step).runs|
    requires SuccessPath(After(s, step).runs[j].finisher) && EnginesFollow(s.runs)
    ensures Quiet(s, s.runs[j])
  {
    hide Quiet, FinishNext, SuccessPath, StartVerdict, StartNext;
    NotSuccess();
    CoreOf(s, step, j);
    if step.Finish? && step.i == j {
      FinishFrame(s, step);
      if !SuccessPath(s.runs[j].finisher) {
        SuccessEntered(s, step);
      }
    } else if step.Start? && step.i == j {
      StartFrame(s, step);
    }
  }

  predicate Analysed(s: State, id: string) {
    id in s.rows && s.rows[id].state in {Analyzing, Reporting, Completed}
  }

  /** Once results are being produced for an experiment, every run with traffic on record has gone quiet. */
  ghost predicate AnalysedInQuiet(s: State) {
    forall i :: 0 <= i < |s.runs| && Traffic(s.runs[i]) && Analysed(s, s.runs[i].id) ==> Quiet(s, s.runs[i])
  }

  lemma AnalysedInQuietKept(s: State, step: Step)
    requires Enabled(s, step) && Tokens(s.runs, s.active) && OneTraffic(s.runs)
    requires EnginesFollow(s.runs) && WoundDown(s) && AnalysedInQuiet(s)
    ensures AnalysedInQuiet(After(s, step))
  {
    hide Quiet, EnginesFollow, Tokens, OneTraffic, WoundDown, Traffic, Enabled, After;
    var s' := After(s, step);
    forall j | 0 <= j < |s'.runs| && Traffic(s'.runs[j]) && Analysed(s', s'.runs[j].id)
      ensures Quiet(s', s'.runs[j])
    {
      AnalysedRunWasQuiet(s, step, j);
      QuietStays(s, step, j);
    }
  }

  lemma AnalysedRunWasQuiet(s: State, step: Step, j: nat)
    requires Enabled(s, step) && Tokens(s.runs, s.active) && OneTraffic(s.runs)
    requires WoundDown(s) && AnalysedInQuiet(s)
    requires j < |After(s, step).runs| && Traffic(After(s, step).runs[j])
    requires Analysed(After(s, step), After(s, step).runs[j].id)
    ensures j < |s.runs| && Quiet(s, s.runs[j])
  {
    hide Quiet, Tokens, Traffic, Enabled, After;
    var s' := After(s, step);
    if j < |s.runs| && Traffic(s.runs[j]) {
      TrafficStays(s, step, j);
      var id := s.runs[j].id;
      AnalysedBy(s, step, id);
      if !Analysed(s, id) {
        FinisherHasTraffic(s, step);
        assert step.i == j;
      }
    } else {
      NewTraffic(s, step, j);
      StartsWithId(s, step);
      EnteringIsNotAnalysed(s, step);
    }
  }

  lemma FinisherHasTraffic(s: State, step: Step)
    requires Enabled(s, step) && step.Finish?
    ensures step.i < |s.runs| && Traffic(s.runs[step.i])
  {
  }

  /** Only a finisher on the success path moves a row into a result-producing state. */
  lemma AnalysedBy(s: State, step: Step, id: string)
    requires Enabled(s, step)
    requires Analysed(After(s, step), id)
    ensures Analysed(s, id)
         || (step.Finish? && s.runs[step.i].id == id && SuccessPath(s.runs[step.i].finisher))
  {
    hide StartVerdict, StopWrite, Logged, FinishRun, StartRun;
    if !step.Create? {
      RowsFrame(s, step);
      if StepWrite(s, step).Some? {
        WriteIsLegal(s, step);
      }
    }
  }

  // ---------------------------------------------------------------- every finisher ends

  ghost predicate Sound(s: State) {
    Base(s) && Risen(s) && LaunchOnce(s) && EnginesFollow(s.runs)
  }

  lemma SoundKept(s: State, step: Step)
    requires Enabled(s, step) && !LosesAbort(s, step) && Sound(s)
    ensures Sound(After(s, step))
  {
    hide Enabled, After, Base, Risen, LaunchOnce, EnginesFollow, LosesAbort;
    BaseKept(s, step);
    BaseParts(s);
    RisenKept(s, step);
    LaunchOnceKept(s, step);
    EngineFollowsKept(s, step);
  }

  /** As long as its finisher has work left and its stress context is over, a run can take a step of its own. */
  lemma OwnStepExists(s: State, i: nat) returns (step: Step)
    requires EnginesFollow(s.runs) && i < |s.runs| && Launched(s.runs[i]) && s.runs[i].finisher != Finished
    requires StressEnded(s, s.runs[i])
    ensures Own(step, i) && Enabled(s, step) && RepositoryHolds(step)
  {
    var r := s.runs[i];
    assert EngineFollows(r);
    if r.finisher == Polling {
      step := Finish(i, if r.startErr.Some? then PickError else PickDefault, "", IoOk, 0);
    } else if r.finisher == Waiting {
      if r.stressDone {
        step := Finish(i, PickDone, "", IoOk, 0);
      } else if r.engine == EngineSignals && r.signal != Signalled {
        step := Signal(i, "stress engine failed");
      } else {
        step := Engine(i, CancelledResult);
      }
    } else if r.finisher == Recovering {
      step := Finish(i, PickTimer, "", IoOk, 0);
    } else {
      step := Finish(i, Proceed(true), "", IoOk, 0);
    }
  }

  /** A run past its release left its row in a terminal state: none of its aborts was lost. */
  ghost predicate Concluded(s: State, r: Run) {
    Released(r.finisher) && r.id in s.rows ==> IsTerminal(s.rows[r.id].state)
  }

  /** A finisher whose calls hold comes to its release by a completed or an aborted row. */
  lemma ReleasesTerminal(s: State, step: Step)
    requires FinishEnabled(s, step) && step.io.IoOk? && s.runs[step.i].id in s.rows && FinishNext(s, step) == Releasing
    ensures var id := s.runs[step.i].id; IsTerminal(ApplyWrite(s.rows, id, FinishVerdict(s, step).write)[id].state)
  {
    hide Stored;
  }

  lemma FinishConcludes(s: State, step: Step)
    requires Enabled(s, step) && step.Finish? && step.io.IoOk? && s.rows.Keys == s.born.Keys
    requires Informed(s, s.runs[step.i]) && Concluded(s, s.runs[step.i]) && Shaped(s.runs[step.i])
    ensures Concluded(After(s, step), FinishRun(s, step))
  {
    hide After, RowsAdvance, Logged, FinishVerdict, ApplyWrite, FinishNext, IsTerminal;
    RowsAlwaysAdvance(s, step);
    TerminalStays(s, After(s, step), s.runs[step.i].id);
    RowsFrame(s, step);
    FinishMoves(s, step);
    if FinishNext(s, step) == Releasing {
      ReleasesTerminal(s, step);
    }
  }

  lemma TerminalStays(s: State, s': State, id: string)
    requires RowsAdvance(s, s') && id in s.rows
    ensures id in s'.rows && (IsTerminal(s.rows[id].state) ==> s'.rows[id] == s.rows[id])
  {
  }

  lemma OwnConcludes(s: State, step: Step, i: nat)
    requires Enabled(s, step) && Own(step, i) && RepositoryHolds(step) && s.rows.Keys == s.born.Keys
    requires i < |s.runs| && Launched(s.runs[i]) && Informed(s, s.runs[i]) && Shaped(s.runs[i])
    requires Concluded(s, s.runs[i])
    ensures i < |After(s, step).runs| && Concluded(After(s, step), After(s, step).runs[i])
  {
    hide After, FinishRun, RowsAdvance, IsTerminal;
    RunsNeverShrink(s, step);
    CoreOf(s, step, i);
    RowsAlwaysAdvance(s, step);
    if step.Finish? {
      FinishConcludes(s, step);
      FinishFrame(s, step);
    } else {
      TerminalStays(s, After(s, step), s.runs[i].id);
    }
  }

  /** Left to its own goroutines, a run whose stress context is over finishes within its measure:
      the row is terminal and the token is free of it. */
  lemma {:induction false} FinisherCompletes(s: State, i: nat) returns (states: seq<State>, steps: seq<Step>)
    requires Base(s) && EnginesFollow(s.runs) && i < |s.runs| && Launched(s.runs[i]) && StressEnded(s, s.runs[i])
    requires Concluded(s, s.runs[i])
    ensures IsTrace(Next, states, steps) && states[0] == s && |steps| <= Remaining(s.runs[i])
    ensures forall k :: 0 <= k < |steps| ==> Own(steps[k], i) && RepositoryHolds(steps[k])
    ensures var end := states[|steps|];
      && i < |end.runs| && end.runs[i].finisher == Finished && end.runs[i].id == s.runs[i].id
      && end.runs[i].id in end.rows && IsTerminal(end.rows[end.runs[i].id].state)
      && !(end.runs[i].id in end.active && end.active[end.runs[i].id] == i)
    decreases Remaining(s.runs[i])
  {
    hide Enabled, After, Base, EnginesFollow, Remaining, Concluded;
    if s.runs[i].finisher == Finished {
      states, steps := [s], [];
      FinishedRun(s, i);
    } else {
      var step := OwnStepExists(s, i);
      BaseKept(s, step);
      EngineFollowsKept(s, step);
      BaseOf(s, i);
      OwnConcludes(s, step, i);
      OwnStepFacts(s, step, i);
      states, steps := FinisherCompletes(After(s, step), i);
      TracePrefixed(Next, s, step, states, steps);
      states, steps := [s] + states, [step] + steps;
    }
  }

  lemma BaseOf(s: State, i: nat)
    requires Base(s) && i < |s.runs|
    ensures s.rows.Keys == s.born.Keys && Informed(s, s.runs[i]) && Shaped(s.runs[i])
  {
    hide RowTold, Carries, Reported;
  }

  lemma FinishedRun(s: State, i: nat)
    requires Base(s) && i < |s.runs| && s.runs[i].finisher == Finished && Concluded(s, s.runs[i])
    ensures s.runs[i].id in s.rows && IsTerminal(s.rows[s.runs[i].id].state)
    ensures !(s.runs[i].id in s.active && s.active[s.runs[i].id] == i)
  {
    hide Told, Reported, Carries;
    assert Informed(s, s.runs[i]) && !Holds(s.runs[i]);
  }

  lemma OwnStepFacts(s: State, step: Step, i: nat)
    requires EnginesFollow(s.runs) && Enabled(s, step) && Own(step, i) && i < |s.runs| && Launched(s.runs[i])
    requires StressEnded(s, s.runs[i])
    ensures var s' := After(s, step);
      && i < |s'.runs| && s'.runs[i].id == s.runs[i].id && Launched(s'.runs[i]) && StressEnded(s', s'.runs[i])
      && Remaining(s'.runs[i]) < Remaining(s.runs[i])
  {
    hide Enabled, After, Remaining, EngineFollows, Shaped;
    RunRises(s, step, i);
    CoreOf(s, step, i);
    LaunchedStays(s, step, i);
  }

  lemma LaunchedStays(s: State, step: Step, i: nat)
    requires EnginesFollow(s.runs) && Enabled(s, step) && i < |s.runs| && Launched(s.runs[i])
    ensures i < |After(s, step).runs| && Launched(After(s, step).runs[i])
  {
    hide After, FinishRun, StartVerdict, StartNext;
    assert EngineFollows(s.runs[i]) && Shaped(s.runs[i]);
    RunsNeverShrink(s, step);
    CoreOf(s, step, i);
    if step.Start? && step.i == i {
      StartFrame(s, step);
    } else if step.Finish? && step.i == i {
      FinishFrame(s, step);
      FinishToken(s, step);
    }
  }
}
