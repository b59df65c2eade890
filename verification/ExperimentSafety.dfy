/** What every execution of the experiment protocol keeps, repository failures included. */
module ExperimentSafety {
  import opened Executions
  import opened Lifecycle
  import opened ExperimentProtocol
  import opened ExperimentFrames

  // ---------------------------------------------------------------- persisted histories

  ghost predicate RowTold(s: State, id: string)
    requires id in s.rows && id in s.born
  {
    IsHistory(s.born[id].state, History(s, id)) && s.rows[id] == Replay(s.born[id], History(s, id))
  }

  /** Each row is the result of replaying a legal history from the row as first seen. */
  ghost predicate Told(s: State) {
    s.rows.Keys == s.born.Keys && forall id :: id in s.rows ==> RowTold(s, id)
  }

  lemma ReplayState(row: Row, ws: seq<Write>)
    ensures Replay(row, ws).state == FinalState(row.state, ws)
  {
  }

  lemma ReplayAppend(row: Row, ws: seq<Write>, w: Write)
    ensures Replay(row, ws + [w]) == Updated(Replay(row, ws), w)
  {
    assert (ws + [w])[..|ws|] == ws;
  }

  lemma ToldAfterWrite(s: State, s': State, id: string, write: Option<Write>)
    requires Told(s) && s'.born == s.born
    requires s'.rows == ApplyWrite(s.rows, id, write) && s'.writes == Logged(s, id, write)
    requires write.Some? ==> id in s.rows && CanTransition(s.rows[id].state, write.value.target)
    ensures Told(s')
  {
    hide IsHistory, Replay, Updated, FinalState;
    forall k | k in s'.rows ensures RowTold(s', k) {
      assert RowTold(s, k);
      if write.Some? && k == id {
        ReplayState(s.born[id], History(s, id));
        HistoryGrows(s.born[id].state, History(s, id), write.value);
        ReplayAppend(s.born[id], History(s, id), write.value);
      } else {
        assert History(s', k) == History(s, k);
      }
    }
  }

  lemma ToldAfterCreate(s: State, step: Step)
    requires Told(s) && step.Create? && Enabled(s, step)
    ensures Told(After(s, step))
  {
    hide IsHistory, Replay;
    var s' := After(s, step);
    forall k | k in s'.rows ensures RowTold(s', k) {
      if k == step.id {
        FreshRow(NewRow(step.config));
      } else {
        assert RowTold(s, k);
      }
    }
  }

  lemma FreshRow(row: Row)
    ensures IsHistory(row.state, []) && Replay(row, []) == row
  {
  }

  lemma ToldKept(s: State, step: Step)
    requires Told(s) && Enabled(s, step)
    ensures Told(After(s, step))
  {
    hide RowTold, ApplyWrite, Logged, Enabled, After, CanTransition;
    if step.Create? {
      ToldAfterCreate(s, step);
    } else {
      RowsFrame(s, step);
      if StepWrite(s, step).Some? {
        WriteIsLegal(s, step);
      }
      ToldAfterWrite(s, After(s, step), StepId(s, step), StepWrite(s, step));
    }
  }

  // ---------------------------------------------------------------- the activeRuns token

  /** Between winning the check-and-set under mu and the matching removal. */
  predicate Holds(r: Run) {
    || r.starter in {Entering, Undoing, Unclaiming, Launching}
    || (Launched(r) && r.finisher != CancellingContext && r.finisher != Finished)
  }

  /** Stress traffic has been, or is about to be, launched for this run. */
  predicate Traffic(r: Run) {
    r.starter == Launching || Launched(r)
  }

  ghost predicate Shaped(r: Run) {
    Launched(r) ==> r.starter == Returned
  }

  /** A run holds the token exactly while its id maps to it. */
  ghost predicate Tokens(runs: seq<Run>, active: map<string, nat>) {
    && (forall i :: 0 <= i < |runs| ==> Shaped(runs[i]))
    && (forall id :: id in active ==> active[id] < |runs| && runs[active[id]].id == id)
    && forall i :: 0 <= i < |runs| ==> (Holds(runs[i]) <==> runs[i].id in active && active[runs[i].id] == i)
  }

  lemma TokensSameCores(runs: seq<Run>, runs': seq<Run>, active: map<string, nat>)
    requires Tokens(runs, active) && SameCores(runs', runs)
    ensures Tokens(runs', active)
  {
    forall i | 0 <= i < |runs'|
      ensures Holds(runs'[i]) == Holds(runs[i]) && Shaped(runs'[i]) && runs'[i].id == runs[i].id
    {
      assert SameCore(runs'[i], runs[i]);
    }
  }

  /** Replacing one run by one that holds exactly what it held. */
  lemma TokensSameHold(runs: seq<Run>, i: nat, r: Run, active: map<string, nat>)
    requires Tokens(runs, active) && i < |runs|
    requires r.id == runs[i].id && Holds(r) == Holds(runs[i]) && Shaped(r)
    ensures Tokens(runs[i := r], active)
  {
  }

  lemma TokensClaimed(runs: seq<Run>, i: nat, r: Run, active: map<string, nat>)
    requires Tokens(runs, active) && i < |runs| && r.id !in active
    requires r.id == runs[i].id && Holds(r) && Shaped(r)
    ensures Tokens(runs[i := r], active[r.id := i])
  {
  }

  lemma TokensReleased(runs: seq<Run>, i: nat, r: Run, active: map<string, nat>)
    requires Tokens(runs, active) && i < |runs| && Holds(runs[i])
    requires r.id == runs[i].id && !Holds(r) && Shaped(r)
    ensures Tokens(runs[i := r], Without(active, r.id))
  {
  }

  lemma StartToken(s: State, step: Step)
    requires Enabled(s, step) && step.Start? && Shaped(s.runs[step.i])
    ensures var r, r' := s.runs[step.i], StartRun(s, step);
      && r'.id == r.id && Shaped(r') && !Launched(r)
      && (r.starter == Claiming && r.id !in s.active ==> Holds(r'))
      && (r.starter == Unclaiming ==> Holds(r) && !Holds(r'))
      && (r.starter != Unclaiming && (r.starter == Claiming ==> r.id in s.active) ==> Holds(r') == Holds(r))
  {
    hide StartVerdict;
  }

  lemma FinishKeepsId(s: State, step: Step)
    requires step.Finish? && step.i < |s.runs|
    ensures var r, r' := s.runs[step.i], FinishRun(s, step);
        r'.id == r.id && r'.starter == r.starter && r'.config == r.config
  {
    hide FinishVerdict, Stored;
  }

  lemma FinishMoves(s: State, step: Step)
    requires FinishEnabled(s, step)
    ensures var pc, pc' := s.runs[step.i].finisher, FinishRun(s, step).finisher;
      && pc != FinisherOff && pc' != FinisherOff && pc != Finished
      && (pc == Releasing <==> pc' == CancellingContext) && (pc == CancellingContext <==> pc' == Finished)
  {
    hide FinishVerdict, Stored;
  }

  lemma FinishToken(s: State, step: Step)
    requires Enabled(s, step) && step.Finish? && Shaped(s.runs[step.i])
    ensures var r, r' := s.runs[step.i], FinishRun(s, step);
      && r'.id == r.id && Shaped(r') && Launched(r) && Launched(r')
      && (r.finisher == Releasing ==> Holds(r) && !Holds(r'))
      && (r.finisher != Releasing ==> Holds(r') == Holds(r))
  {
    hide FinishRun;
    FinishKeepsId(s, step);
    FinishMoves(s, step);
  }

  lemma TokensKept(s: State, step: Step)
    requires Enabled(s, step) && Tokens(s.runs, s.active)
    ensures Tokens(After(s, step).runs, After(s, step).active)
  {
    hide Tokens, Holds, Shaped, StartRun, FinishRun, After;
    TokensShape(s.runs, s.active);
    match step
    case Start(i, _, _, _, _) =>
      StartToken(s, step);
      StartFrame(s, step);
      var r' := StartRun(s, step);
      if s.runs[i].starter == Claiming && s.runs[i].id !in s.active {
        TokensClaimed(s.runs, i, r', s.active);
      } else if s.runs[i].starter == Unclaiming {
        TokensReleased(s.runs, i, r', s.active);
      } else {
        TokensSameHold(s.runs, i, r', s.active);
      }
    case Finish(i, _, _, _, _) =>
      FinishToken(s, step);
      FinishFrame(s, step);
      var r' := FinishRun(s, step);
      if s.runs[i].finisher == Releasing {
        TokensReleased(s.runs, i, r', s.active);
      } else {
        TokensSameHold(s.runs, i, r', s.active);
      }
    case BeginStart(id) =>
      TokensNewRun(s.runs, s.active, id);
      BeginStartFrame(s, step);
    case _ =>
      QuietFrame(s, step);
      TokensSameCores(s.runs, After(s, step).runs, s.active);
  }

  lemma TokensShape(runs: seq<Run>, active: map<string, nat>)
    requires Tokens(runs, active)
    ensures forall i :: 0 <= i < |runs| ==> Shaped(runs[i])
  {
  }

  lemma TokensNewRun(runs: seq<Run>, active: map<string, nat>, id: string)
    requires Tokens(runs, active)
    ensures Tokens(runs + [NewRun(id)], active)
  {
  }

  /** Mutual exclusion: two runs of one experiment never hold the token together. */
  lemma OneHolderPerExperiment(s: State, i: nat, j: nat)
    requires Tokens(s.runs, s.active) && i < |s.runs| && j < |s.runs|
    requires Holds(s.runs[i]) && Holds(s.runs[j]) && s.runs[i].id == s.runs[j].id
    ensures i == j
  {
  }

  /** Only the holder removes an entry, and only by its own starter's or finisher's step. */
  lemma OnlyHolderReleases(s: State, step: Step, id: string)
    requires Enabled(s, step) && Tokens(s.runs, s.active)
    requires id in s.active && (id !in After(s, step).active || After(s, step).active[id] != s.active[id])
    ensures (step.Start? && s.runs[step.i].starter == Unclaiming)
        || (step.Finish? && s.runs[step.i].finisher == Releasing)
    ensures step.i == s.active[id] && s.runs[step.i].id == id && id !in After(s, step).active
  {
    hide StartRun, FinishRun, Shaped, After;
    match step
    case Start(i, _, _, _, _) =>
      StartFrame(s, step);
      assert Holds(s.runs[i]) <==> s.runs[i].id in s.active && s.active[s.runs[i].id] == i;
    case Finish(i, _, _, _, _) =>
      FinishFrame(s, step);
      assert Holds(s.runs[i]) <==> s.runs[i].id in s.active && s.active[s.runs[i].id] == i;
    case BeginStart(_) => BeginStartFrame(s, step);
    case _ => QuietFrame(s, step);
  }

  // ---------------------------------------------------------------- reports

  /** The starter has read the row: it was in CREATED, and the run copied its configuration. */
  predicate PastRead(r: Run) {
    r.starter !in {Reading, Returned} || Launched(r)
  }

  ghost predicate Informed(s: State, r: Run) {
    PastRead(r) ==> r.id in s.rows && r.id in s.born && s.born[r.id].state == Created && r.config == s.rows[r.id].config
  }

  ghost predicate GoodReport(s: State, id: string, report: Report)
    requires id in s.rows
  {
    report.experimentId == id && report.result == s.setup.analyze(report.observations, s.rows[id].config.policy)
  }

  /** What the finisher carries towards the report is the analysis of what it carries. */
  ghost predicate Carries(s: State, r: Run) {
    match r.finisher
    case EnteringReporting(obs, result) => result == s.setup.analyze(obs, r.config.policy)
    case Compiling(obs, result) => result == s.setup.analyze(obs, r.config.policy)
    case SavingReport(report) => report.experimentId == r.id
        && report.result == s.setup.analyze(report.observations, r.config.policy)
    case EnteringCompleted => r.id in s.rows && r.id in s.reports && GoodReport(s, r.id, s.reports[r.id])
    case _ => true
  }

  /** A row completed by this manager has a report that is the analysis of its own observations. */
  ghost predicate Reported(s: State) {
    forall id :: id in s.rows && s.rows[id].state == Completed && id in s.born && s.born[id].state != Completed ==>
      id in s.reports && GoodReport(s, id, s.reports[id])
  }

  ghost predicate Accounted(s: State) {
    && (forall i :: 0 <= i < |s.runs| ==> Informed(s, s.runs[i]) && Carries(s, s.runs[i]))
    && Reported(s)
  }

  /** Later states know as much about a run that did not move, as long as its report, if saved, is still good. */
  lemma RunStillFine(s: State, s': State, r: Run, r': Run)
    requires RowsAdvance(s, s') && s'.setup == s.setup && s.rows.Keys == s.born.Keys
    requires SameCore(r', r) && Informed(s, r) && Carries(s, r)
    requires r.id in s.reports && r.id in s.rows && GoodReport(s, r.id, s.reports[r.id]) ==>
        r.id in s'.reports && GoodReport(s', r.id, s'.reports[r.id])
    ensures Informed(s', r') && Carries(s', r')
  {
  }

  lemma GoodReportKept(s: State, s': State, id: string, report: Report)
    requires RowsAdvance(s, s') && s'.setup == s.setup && id in s.rows && GoodReport(s, id, report)
    ensures GoodReport(s', id, report)
  {
  }

  /** Reports only change when a finisher saves a good one. */
  lemma ReportsStayGood(s: State, step: Step, id: string)
    requires Enabled(s, step) && s.rows.Keys == s.born.Keys
    requires step.Finish? ==> Informed(s, s.runs[step.i]) && Carries(s, s.runs[step.i])
    requires id in s.reports && id in s.rows && GoodReport(s, id, s.reports[id])
    ensures var s' := After(s, step); id in s'.reports && id in s'.rows && GoodReport(s', id, s'.reports[id])
  {
    hide GoodReport, RowsAdvance, StartRun, FinishRun, StartActive, FinishActive, After;
    var s' := After(s, step);
    SetupKept(s, step);
    RowsAlwaysAdvance(s, step);
    RowsPersist(s, s');
    GoodReportKept(s, s', id, s.reports[id]);
    match step
    case Start(_, _, _, _, _) => StartFrame(s, step);
    case BeginStart(_) => BeginStartFrame(s, step);
    case Finish(i, _, _, _, _) =>
      FinishFrame(s, step);
      if s.runs[i].finisher.SavingReport? && s.runs[i].id == id {
        CarriedIsGood(s, s.runs[i]);
        GoodReportKept(s, s', id, s.runs[i].finisher.report);
      }
    case _ => QuietFrame(s, step);
  }

  lemma CarriedIsGood(s: State, r: Run)
    requires Informed(s, r) && Carries(s, r) && r.finisher.SavingReport?
    ensures r.id in s.rows && GoodReport(s, r.id, r.finisher.report)
  {
  }

  lemma SetupKept(s: State, step: Step)
    requires Enabled(s, step)
    ensures After(s, step).setup == s.setup
  {
    if !step.Create? {
      RowsFrame(s, step);
    }
  }

  lemma RowsPersist(s: State, s': State)
    requires RowsAdvance(s, s')
    ensures s.rows.Keys <= s'.rows.Keys
  {
  }

  lemma StartInforms(s: State, step: Step)
    requires Enabled(s, step) && step.Start? && Told(s) && Informed(s, s.runs[step.i]) && Shaped(s.runs[step.i])
    ensures Informed(s, StartRun(s, step)) && Carries(s, StartRun(s, step))
  {
    hide StartVerdict;
    var r := s.runs[step.i];
    if r.starter == Reading && r.id in s.rows && s.rows[r.id].state == Created {
      assert RowTold(s, r.id);
      BornCreated(s, r.id);
    }
  }

  /** A row in CREATED was first seen in CREATED. */
  lemma BornCreated(s: State, id: string)
    requires id in s.rows && id in s.born && RowTold(s, id) && s.rows[id].state == Created
    ensures s.born[id].state == Created
  {
    var ws := History(s, id);
    ReplayState(s.born[id], ws);
    if ws != [] {
      RankRises(s.born[id].state, ws, |ws| - 1);
    }
  }

  lemma FinishCarries(s: State, step: Step)
    requires Enabled(s, step) && step.Finish? && s.rows.Keys == s.born.Keys
    requires Informed(s, s.runs[step.i]) && Carries(s, s.runs[step.i])
    ensures Informed(After(s, step), FinishRun(s, step)) && Carries(After(s, step), FinishRun(s, step))
  {
    hide FinishVerdict, FinishActive, After;
    SetupKept(s, step);
    RowsAlwaysAdvance(s, step);
    FinishFrame(s, step);
  }

  /** COMPLETED is only entered from the step after the report was saved. */
  lemma CompletedIsReported(s: State, step: Step, id: string)
    requires Enabled(s, step) && !step.Create? && (step.Finish? ==> Carries(s, s.runs[step.i]))
    requires id in s.rows && s.rows[id].state != Completed && id in After(s, step).rows
    requires After(s, step).rows[id].state == Completed
    ensures id in s.reports && GoodReport(s, id, s.reports[id])
  {
    hide GoodReport, FinishVerdict, StartVerdict, After, StopWrite, StartRun, FinishRun, Logged;
    RowsFrame(s, step);
    WriteIsLegal(s, step);
  }

  lemma AccountedRun(s: State, step: Step, j: nat)
    requires Enabled(s, step) && Told(s) && Tokens(s.runs, s.active) && Accounted(s) && j < |After(s, step).runs|
    ensures var s' := After(s, step); Informed(s', s'.runs[j]) && Carries(s', s'.runs[j])
  {
    hide GoodReport, RowsAdvance, RowTold, StartRun, FinishRun, StartVerdict, FinishVerdict, ApplyWrite, Logged,
        QuietRuns, Informed, Carries, Tokens, Enabled;
    var s' := After(s, step);
    TokensShape(s.runs, s.active);
    SetupKept(s, step);
    RowsAlwaysAdvance(s, step);
    if step.BeginStart? && j == |s.runs| {
      NewRunFine(s', step.id);
      BeginStartFrame(s, step);
    } else {
      CoreOf(s, step, j);
      var r := s.runs[j];
      if r.id in s.reports && r.id in s.rows && GoodReport(s, r.id, s.reports[r.id]) {
        FinisherFine(s, step);
        ReportsStayGood(s, step, r.id);
      }
      if step.Start? && j == step.i {
        StartInforms(s, step);
        StartFrame(s, step);
        RunStillFine(s, s', StartRun(s, step), s'.runs[j]);
      } else if step.Finish? && j == step.i {
        FinishCarries(s, step);
        FinishFrame(s, step);
      } else {
        RunStillFine(s, s', r, s'.runs[j]);
      }
    }
  }

  lemma FinisherFine(s: State, step: Step)
    requires Enabled(s, step) && Accounted(s)
    ensures step.Finish? ==> Informed(s, s.runs[step.i]) && Carries(s, s.runs[step.i])
  {
    hide Informed, Carries;
  }

  lemma BeginStartFrame(s: State, step: Step)
    requires Enabled(s, step) && step.BeginStart?
    ensures After(s, step).runs == s.runs + [NewRun(step.id)] && After(s, step).active == s.active
    ensures After(s, step).reports == s.reports
  {
  }

  lemma NewRunFine(s: State, id: string)
    ensures Informed(s, NewRun(id)) && Carries(s, NewRun(id))
  {
  }

  /** Every run already known keeps its core unless it is the one whose starter or finisher moved. */
  lemma CoreOf(s: State, step: Step, j: nat)
    requires Enabled(s, step) && j < |After(s, step).runs| && !(step.BeginStart? && j == |s.runs|)
    ensures j < |s.runs| && |s.runs| <= |After(s, step).runs|
    ensures !((step.Start? || step.Finish?) && step.i == j) ==> SameCore(After(s, step).runs[j], s.runs[j])
    ensures After(s, step).runs[j].id == s.runs[j].id
  {
    hide StartRun, FinishRun, QuietRuns;
    match step
    case Start(_, _, _, _, _) =>
      StartFrame(s, step);
      StartKeepsId(s, step);
    case Finish(_, _, _, _, _) =>
      FinishFrame(s, step);
      FinishKeepsId(s, step);
    case BeginStart(_) => BeginStartFrame(s, step);
    case _ => QuietFrame(s, step);
  }

  lemma StartKeepsId(s: State, step: Step)
    requires step.Start? && step.i < |s.runs|
    ensures StartRun(s, step).id == s.runs[step.i].id
  {
    hide StartVerdict;
  }

  lemma AccountedKept(s: State, step: Step)
    requires Enabled(s, step) && Told(s) && Tokens(s.runs, s.active) && Accounted(s)
    ensures Accounted(After(s, step))
  {
    hide GoodReport, RowTold, StartRun, FinishRun, StartVerdict, FinishVerdict, ApplyWrite, Logged, QuietRuns, Tokens,
        Enabled, After, Carries, Informed;
    var s' := After(s, step);
    forall j | 0 <= j < |s'.runs| ensures Informed(s', s'.runs[j]) && Carries(s', s'.runs[j]) {
      AccountedRun(s, step, j);
    }
    forall id | id in s'.rows && s'.rows[id].state == Completed && id in s'.born && s'.born[id].state != Completed
      ensures id in s'.reports && GoodReport(s', id, s'.reports[id])
    {
      ReportedRow(s, step, id);
    }
  }

  lemma ReportedRow(s: State, step: Step, id: string)
    requires Enabled(s, step) && s.rows.Keys == s.born.Keys && Accounted(s)
    requires var s' := After(s, step);
        id in s'.rows && s'.rows[id].state == Completed && id in s'.born && s'.born[id].state != Completed
    ensures var s' := After(s, step); id in s'.reports && GoodReport(s', id, s'.reports[id])
  {
    hide GoodReport, StartRun, FinishRun, StartVerdict, FinishVerdict, ApplyWrite, Logged, QuietRuns, Carries,
        Informed;
    assert id in s.rows by { CompletedExisted(s, step, id); }
    RowsAlwaysAdvance(s, step);
    FinisherFine(s, step);
    if s.rows[id].state != Completed {
      CompletedIsReported(s, step, id);
    }
    ReportsStayGood(s, step, id);
  }

  lemma CompletedExisted(s: State, step: Step, id: string)
    requires Enabled(s, step) && id in After(s, step).rows && After(s, step).rows[id].state == Completed
    ensures id in s.rows && (step.Create? ==> s.rows[id].state == Completed)
  {
    hide StartVerdict, FinishVerdict, StopWrite, Logged;
    if !step.Create? {
      RowsFrame(s, step);
    }
  }

  // ---------------------------------------------------------------- run numbers

  lemma RunsNeverShrink(s: State, step: Step)
    requires Enabled(s, step)
    ensures |s.runs| <= |After(s, step).runs|
  {
    hide StartRun, FinishRun, QuietRuns, SameCore;
    match step
    case Start(_, _, _, _, _) => StartFrame(s, step);
    case Finish(_, _, _, _, _) => FinishFrame(s, step);
    case BeginStart(_) => BeginStartFrame(s, step);
    case _ => QuietFrame(s, step);
  }

  /** Every run number a handler, a stopper or the shutdown carries denotes a run. */
  ghost predicate Indexed(s: State) {
    && (forall h :: 0 <= h < |s.handlers| ==> s.handlers[h].run < |s.runs|)
    && (forall k :: 0 <= k < |s.stops| && s.stops[k].pc.Cutting? ==> s.stops[k].pc.run < |s.runs|)
    && (forall j :: j in s.cancelList ==> j < |s.runs|)
  }

  /** The callers of s' are those of s, up to what this step did to them. */
  lemma CallersFrame(s: State, step: Step)
    requires Enabled(s, step)
    ensures var s' := After(s, step);
      && s'.handlers == (match step
                         case Snapshot(i, o) => s.handlers + [HandlerCall(i, o, SavingObservation)]
                         case Handle(h, _) => s.handlers[h := s.handlers[h].(pc := HandleNext(s, step))]
                         case _ => s.handlers)
      && s'.stops == (match step
                      case BeginStop(id, reason) => s.stops + [StopCall(id, reason, LookingUp)]
                      case Stop(k, _, _) => s.stops[k := s.stops[k].(pc := StopNext(s, step))]
                      case _ => s.stops)
      && s'.cancelList == (match step
                           case CollectRuns => s.cancelList + (set id | id in s.active :: s.active[id])
                           case CancelRun(i) => s.cancelList - {i}
                           case _ => s.cancelList)
  {
    hide StartRun, FinishRun, StartVerdict, FinishVerdict, EngineRun, WatchRun, SignalRun, StopNext, HandleNext,
        StopWrite;
    hide NewRun, StopRuns, HandleRuns, HandleObservations, StartActive, FinishActive, FinishReports, ApplyWrite, Logged;
  }

  lemma IndexedKept(s: State, step: Step)
    requires Enabled(s, step) && Indexed(s) && Tokens(s.runs, s.active)
    ensures Indexed(After(s, step))
  {
    hide After, Tokens, HandleNext;
    RunsNeverShrink(s, step);
    CallersFrame(s, step);
    TokensIndexed(s.runs, s.active);
  }

  lemma TokensIndexed(runs: seq<Run>, active: map<string, nat>)
    requires Tokens(runs, active)
    ensures forall id :: id in active ==> active[id] < |runs| && runs[active[id]].id == id && Holds(runs[active[id]])
  {
  }
}
