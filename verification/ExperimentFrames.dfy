/** Which step may change what: the frame facts every invariant of the experiment protocol rests on. */
module ExperimentFrames {
  import opened CapacityModel
  import opened Executions
  import opened Lifecycle
  import opened ExperimentProtocol

  /** The part of a run that only its starter and its finisher change. */
  predicate SameCore(a: Run, b: Run) {
    a.id == b.id && a.config == b.config && a.starter == b.starter && a.finisher == b.finisher
  }

  /** The update a step applies, and the row it applies it to. */
  function StepId(s: State, step: Step): string
    requires Enabled(s, step)
  {
    match step
    case Start(i, _, _, _, _) => s.runs[i].id
    case Finish(i, _, _, _, _) => s.runs[i].id
    case Stop(k, _, _) => s.stops[k].id
    case _ => ""
  }

  function StepWrite(s: State, step: Step): Option<Write>
    requires Enabled(s, step)
  {
    match step
    case Start(_, _, _, _, _) => StartVerdict(s, step).write
    case Finish(_, _, _, _, _) => FinishVerdict(s, step).write
    case Stop(_, _, _) => StopWrite(s, step)
    case _ => None
  }

  /** Outside Create, rows change only by the step's own update. */
  lemma RowsFrame(s: State, step: Step)
    requires Enabled(s, step) && !step.Create?
    ensures var s' := After(s, step);
      && s'.rows == ApplyWrite(s.rows, StepId(s, step), StepWrite(s, step))
      && s'.writes == Logged(s, StepId(s, step), StepWrite(s, step))
      && s'.born == s.born && s'.setup == s.setup
  {
    hide StartRun, FinishRun, StartVerdict, FinishVerdict, EngineRun, WatchRun, SignalRun, StopNext, HandleNext,
        StopWrite, Decide;
    hide History, Stored, NewRun, StopRuns, HandleRuns, HandleObservations, StartActive, FinishActive, FinishReports;
  }

  /** A step's update is always one transitionState granted: the row exists and the table allows the move. */
  lemma WriteIsLegal(s: State, step: Step)
    requires Enabled(s, step) && StepWrite(s, step).Some?
    ensures StepId(s, step) in s.rows
    ensures CanTransition(s.rows[StepId(s, step)].state, StepWrite(s, step).value.target)
    ensures StepWrite(s, step).value.target == Running ==> step.Start? && s.runs[step.i].starter == Entering
    ensures StepWrite(s, step).value.target in {Analyzing, Reporting, Completed} ==>
      step.Finish? && FinishTarget(s.runs[step.i].finisher) == StepWrite(s, step).value.target
  {
  }

  ghost predicate SameCores(a: seq<Run>, b: seq<Run>) {
    |a| == |b| && forall j :: 0 <= j < |a| ==> SameCore(a[j], b[j])
  }

  lemma SameCoresUpdate(runs: seq<Run>, i: nat, r: Run)
    requires i < |runs| && SameCore(r, runs[i])
    ensures SameCores(runs[i := r], runs)
  {
  }

  lemma SameCoresSelf(runs: seq<Run>)
    ensures SameCores(runs, runs)
  {
  }

  /** The runs after a step that no starter or finisher takes. */
  function QuietRuns(s: State, step: Step): seq<Run>
    requires Enabled(s, step) && !step.Start? && !step.Finish? && !step.BeginStart?
  {
    match step
    case Engine(i, result) => s.runs[i := EngineRun(s.runs[i], result)]
    case Watch(i, ok) => s.runs[i := WatchRun(s.runs[i], ok)]
    case Signal(i, reason) => s.runs[i := SignalRun(s.runs[i], reason)]
    case CancelRun(i) => s.runs[i := s.runs[i].(stressCut := true)]
    case Stop(k, _, _) => StopRuns(s, k)
    case Handle(h, _) => HandleRuns(s, h)
    case _ => s.runs
  }

  lemma QuietRunsAre(s: State, step: Step)
    requires Enabled(s, step) && !step.Start? && !step.Finish? && !step.BeginStart?
    ensures After(s, step).runs == QuietRuns(s, step)
    ensures After(s, step).active == s.active && After(s, step).reports == s.reports
  {
    hide StartAfter, FinishAfter, EngineRun, WatchRun, SignalRun, StopNext, HandleNext, StopWrite, ApplyWrite, Logged;
    hide StopRuns, HandleRuns, HandleObservations, NewRun;
  }

  lemma QuietRunsSame(s: State, step: Step)
    requires Enabled(s, step) && !step.Start? && !step.Finish? && !step.BeginStart?
    ensures SameCores(QuietRuns(s, step), s.runs)
  {
    hide SameCores, IsSlaBreached;
    SameCoresSelf(s.runs);
    match step
    case Engine(i, result) => SameCoresUpdate(s.runs, i, EngineRun(s.runs[i], result));
    case Watch(i, ok) => SameCoresUpdate(s.runs, i, WatchRun(s.runs[i], ok));
    case Signal(i, reason) => SameCoresUpdate(s.runs, i, SignalRun(s.runs[i], reason));
    case CancelRun(i) => SameCoresUpdate(s.runs, i, s.runs[i].(stressCut := true));
    case Stop(k, _, _) =>
      if s.stops[k].pc.Cutting? {
        var j := s.stops[k].pc.run;
        SameCoresUpdate(s.runs, j, s.runs[j].(stressCut := true));
      }
    case Handle(h, _) =>
      var j := s.handlers[h].run;
      SameCoresUpdate(s.runs, j, s.runs[j].(stressCut := true));
    case _ =>
  }

  /** Steps other than a starter's or a finisher's leave every run's core, the token map and the reports alone. */
  lemma QuietFrame(s: State, step: Step)
    requires Enabled(s, step) && !step.Start? && !step.Finish? && !step.BeginStart?
    ensures SameCores(After(s, step).runs, s.runs)
    ensures After(s, step).active == s.active && After(s, step).reports == s.reports
  {
    hide SameCores, QuietRuns, After, Enabled;
    QuietRunsAre(s, step);
    QuietRunsSame(s, step);
  }

  lemma StartFrame(s: State, step: Step)
    requires Enabled(s, step) && step.Start?
    ensures var s' := After(s, step);
      && s'.runs == s.runs[step.i := StartRun(s, step)] && s'.active == StartActive(s, step.i)
        && s'.reports == s.reports
  {
    hide StartRun, StartVerdict, ApplyWrite, Logged, StartActive;
  }

  lemma FinishFrame(s: State, step: Step)
    requires Enabled(s, step) && step.Finish?
    ensures var s' := After(s, step);
      && s'.runs == s.runs[step.i := FinishRun(s, step)] && s'.active == FinishActive(s, step.i)
      && s'.reports == FinishReports(s, step)
  {
    hide FinishRun, FinishVerdict, ApplyWrite, Logged, FinishActive, FinishReports;
  }

  /** Rows only ever advance: none disappears, none changes its configuration, ranks never fall. */
  ghost predicate RowsAdvance(s: State, s': State) {
    forall id :: id in s.rows ==>
      && id in s'.rows && id in s'.born && (id in s.born ==> s'.born[id] == s.born[id])
      && s'.rows[id].config == s.rows[id].config
      && Rank(s.rows[id].state) <= Rank(s'.rows[id].state)
      && (IsTerminal(s.rows[id].state) ==> s'.rows[id] == s.rows[id])
  }

  lemma WriteAdvances(s: State, s': State, id: string, write: Option<Write>)
    requires s'.rows == ApplyWrite(s.rows, id, write) && s'.born == s.born && s.rows.Keys == s.born.Keys
    requires write.Some? ==> id in s.rows && CanTransition(s.rows[id].state, write.value.target)
    ensures RowsAdvance(s, s') && s'.rows.Keys == s'.born.Keys
  {
    if write.Some? {
      TransitionRises(s.rows[id].state, write.value.target);
    }
  }

  lemma CreateAdvances(s: State, step: Step)
    requires Enabled(s, step) && step.Create? && s.rows.Keys == s.born.Keys
    ensures RowsAdvance(s, After(s, step)) && After(s, step).rows.Keys == After(s, step).born.Keys
  {
  }

  lemma RowsAlwaysAdvance(s: State, step: Step)
    requires Enabled(s, step) && s.rows.Keys == s.born.Keys
    ensures RowsAdvance(s, After(s, step)) && After(s, step).rows.Keys == After(s, step).born.Keys
  {
    hide RowsAdvance, After, Enabled, CanTransition, StepWrite, StepId, ApplyWrite, Logged;
    if step.Create? {
      CreateAdvances(s, step);
    } else {
      RowsFrame(s, step);
      if StepWrite(s, step).Some? {
        WriteIsLegal(s, step);
      }
      WriteAdvances(s, After(s, step), StepId(s, step), StepWrite(s, step));
    }
  }
}
