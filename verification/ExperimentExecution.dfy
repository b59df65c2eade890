/** The protocol's guarantees over whole executions. */
module ExperimentExecution {
  import CapacityAnalyzer
  import opened CapacityModel
  import opened Executions
  import opened Lifecycle
  import opened ExperimentProtocol
  import opened ExperimentFrames
  import opened ExperimentSafety
  import opened ExperimentLaunch
  import opened ExperimentProgress
  import opened ExperimentAborts

  /** Steps on which a guarantee may founder: a finisher's abort of a row in RUNNING that does not reach the table, and
      ABORTED written to a row under a run that holds the entry, by a starter or by a StopExperiment. */
  datatype Hazard = LostAbort | StarterAbort | OrphanAbort

  ghost predicate Permitted(s: State, step: Step, hazards: set<Hazard>) {
    && (LosesAbort(s, step) ==> LostAbort in hazards)
    && (AbandonAborts(s, step) ==> StarterAbort in hazards)
    && (OrphanStopAborts(s, step) ==> OrphanAbort in hazards)
  }

  /** No hazard but these occurs; every other call may fail in any way. */
  ghost predicate Within(states: seq<State>, steps: seq<Step>, hazards: set<Hazard>)
    requires |states| == |steps| + 1
  {
    forall k :: 0 <= k < |steps| ==> Permitted(states[k], steps[k], hazards)
  }

  lemma InitialIsSound(s: State)
    requires Initial(s)
    ensures Sound(s) && WoundDown(s) && AnalysedInQuiet(s) && AllTidy(s) && Risen(s) && Indexed(s)
  {
    forall id | id in s.rows ensures RowTold(s, id) {
      FreshRow(s.rows[id]);
    }
  }

  /** In every reachable state, whatever the repository did on the way. */
  lemma {:induction false} AlwaysBase(states: seq<State>, steps: seq<Step>, k: nat)
    requires IsExecution(states, steps) && k < |states|
    ensures Base(states[k]) && EnginesFollow(states[k].runs) && WoundDown(states[k])
    ensures AllTidy(states[k]) && Risen(states[k]) && Indexed(states[k])
  {
    hide Initial, Enabled, After, Told, Tokens, Accounted, EnginesFollow, WoundDown, Tidy, Risen, Indexed;
    if k == 0 {
      InitialIsSound(states[0]);
      SoundParts(states[0]);
    } else {
      AlwaysBase(states, steps, k - 1);
      StepAt(states, steps, k - 1);
      BaseKept(states[k - 1], steps[k - 1]);
      EngineFollowsKept(states[k - 1], steps[k - 1]);
      WoundDownKept(states[k - 1], steps[k - 1]);
      IndexedKept(states[k - 1], steps[k - 1]);
      BaseParts(states[k - 1]);
      RisenKept(states[k - 1], steps[k - 1]);
      forall j | 0 <= j < |states[k].runs| ensures Tidy(states[k], states[k].runs[j]) {
        TidyKept(states[k - 1], steps[k - 1], j);
      }
    }
  }

  /** In every state reached while every finisher's abort of a row in RUNNING reached the table. */
  lemma {:induction false} AlwaysSound(states: seq<State>, steps: seq<Step>, hazards: set<Hazard>, k: nat)
    requires IsExecution(states, steps) && Within(states, steps, hazards) && LostAbort !in hazards && k < |states|
    ensures Sound(states[k]) && AnalysedInQuiet(states[k])
  {
    hide Initial, Enabled, After, Sound, AnalysedInQuiet, WoundDown, LosesAbort, AbandonAborts, OrphanStopAborts;
    if k == 0 {
      InitialIsSound(states[0]);
    } else {
      AlwaysSound(states, steps, hazards, k - 1);
      AlwaysBase(states, steps, k - 1);
      StepAt(states, steps, k - 1);
      assert Permitted(states[k - 1], steps[k - 1], hazards);
      SoundKept(states[k - 1], steps[k - 1]);
      SoundParts(states[k - 1]);
      AnalysedInQuietKept(states[k - 1], steps[k - 1]);
    }
  }

  lemma SoundParts(s: State)
    requires Sound(s)
    ensures Base(s) && Risen(s) && LaunchOnce(s) && EnginesFollow(s.runs) && OneTraffic(s.runs)
  {
  }

  /** Callers hold run numbers that denote runs, so the index guards of their steps never stand in their way. */
  lemma GuardsNeverBlock(states: seq<State>, steps: seq<Step>, k: nat)
    requires IsExecution(states, steps) && k < |states|
    ensures var s := states[k];
      && (forall c, io, now :: 0 <= c < |s.stops| && s.stops[c].pc != StopReturned ==> StopEnabled(s, Stop(c, io, now)))
      && (forall h, io :: 0 <= h < |s.handlers| && s.handlers[h].pc !in {HandlerDone, HandlerSignals} ==>
           HandleEnabled(s, Handle(h, io)))
      && (forall i :: i in s.cancelList ==> Enabled(s, CancelRun(i)))
  {
    hide Initial, After, Base, EnginesFollow, WoundDown, AllTidy;
    AlwaysBase(states, steps, k);
  }

  // ---------------------------------------------------------------- the token

  /** At most one run per experiment is between claiming and releasing the activeRuns entry, failures or not. */
  lemma TokenIsExclusive(states: seq<State>, steps: seq<Step>, k: nat, i: nat, j: nat)
    requires IsExecution(states, steps) && k < |states| && i < |states[k].runs| && j < |states[k].runs|
    requires Holds(states[k].runs[i]) && Holds(states[k].runs[j]) && states[k].runs[i].id == states[k].runs[j].id
    ensures i == j && states[k].runs[i].id in states[k].active && states[k].active[states[k].runs[i].id] == i
  {
    hide Initial, Enabled, After, Told, Accounted, EnginesFollow, WoundDown, AllTidy, Risen, Indexed;
    AlwaysBase(states, steps, k);
    OneHolderPerExperiment(states[k], i, j);
  }

  /** Stress traffic is launched at most once per experiment in the whole execution, as long as the finishers' aborts of
      rows in RUNNING reach the table. */
  lemma TrafficLaunchedOnce(states: seq<State>, steps: seq<Step>, hazards: set<Hazard>, k: nat, i: nat, m: nat, j: nat)
    requires IsExecution(states, steps) && Within(states, steps, hazards) && LostAbort !in hazards && k <= m < |states|
    requires i < |states[k].runs| && j < |states[m].runs| && Launched(states[k].runs[i]) && Launched(states[m].runs[j])
    requires states[k].runs[i].id == states[m].runs[j].id
    ensures i == j
  {
    hide Initial, Enabled, After, Sound, AnalysedInQuiet, Permitted;
    LaunchedForever(states, steps, k, m, i);
    AlwaysSound(states, steps, hazards, m);
    SoundParts(states[m]);
  }

  lemma {:induction false} LaunchedForever(states: seq<State>, steps: seq<Step>, k: nat, m: nat, i: nat)
    requires IsExecution(states, steps) && k <= m < |states|
    requires i < |states[k].runs| && Launched(states[k].runs[i])
    ensures i < |states[m].runs| && Launched(states[m].runs[i]) && states[m].runs[i].id == states[k].runs[i].id
    decreases m - k
  {
    hide Initial, Enabled, After, Base, EnginesFollow, WoundDown, AllTidy, Risen, Indexed;
    if k < m {
      LaunchedForever(states, steps, k, m - 1, i);
      AlwaysBase(states, steps, m - 1);
      StepAt(states, steps, m - 1);
      LaunchedStays(states[m - 1], steps[m - 1], i);
      CoreOf(states[m - 1], steps[m - 1], i);
    }
  }

  /** No move to RUNNING loses its acknowledgement. */
  ghost predicate EntriesAcknowledged(states: seq<State>, steps: seq<Step>)
    requires |states| == |steps| + 1
  {
    forall k :: 0 <= k < |steps| ==> !LosesEntry(states[k], steps[k])
  }

  lemma {:induction false} AlwaysHeld(states: seq<State>, steps: seq<Step>, hazards: set<Hazard>, k: nat)
    requires IsExecution(states, steps) && Within(states, steps, hazards) && LostAbort !in hazards
    requires EntriesAcknowledged(states, steps) && k < |states|
    ensures RunningHeld(states[k])
  {
    hide Initial, Enabled, After, Sound, AnalysedInQuiet, Permitted, LosesEntry;
    if k == 0 {
      NoRunsHold(states[0]);
    } else {
      AlwaysHeld(states, steps, hazards, k - 1);
      AlwaysSound(states, steps, hazards, k - 1);
      SoundParts(states[k - 1]);
      StepAt(states, steps, k - 1);
      RunningHeldKept(states[k - 1], steps[k - 1]);
    }
  }

  lemma NoRunsHold(s: State)
    requires Initial(s)
    ensures RunningHeld(s)
  {
  }

  /** A starter that goes on to launch holds the entry and found the row in PLANNED: the equal-state shortcut is taken
      at PLANNED only. */
  lemma RunningOnlyFromPlanned(states: seq<State>, steps: seq<Step>, hazards: set<Hazard>, k: nat)
    requires IsExecution(states, steps) && Within(states, steps, hazards) && LostAbort !in hazards
    requires EntriesAcknowledged(states, steps) && k < |steps|
    requires steps[k].Start? && steps[k].i < |states[k].runs| && states[k].runs[steps[k].i].starter == Entering
    requires StartRun(states[k], steps[k]).starter == Launching
    ensures var s, i := states[k], steps[k].i;
      && s.runs[i].id in s.active && s.active[s.runs[i].id] == i
      && s.runs[i].id in s.rows && s.rows[s.runs[i].id].state == Planned
  {
    hide Initial, After, Told, Accounted, AnalysedInQuiet, Permitted, LosesEntry, EnginesFollow, StartRun;
    StepAt(states, steps, k);
    AlwaysHeld(states, steps, hazards, k);
    AlwaysBase(states, steps, k);
    EntersHolding(states[k], steps[k]);
    BaseParts(states[k]);
    BaseOf(states[k], steps[k].i);
    EntersFromPlanned(states[k], steps[k]);
  }

  // ---------------------------------------------------------------- aborted runs

  lemma {:induction false} AlwaysCeases(states: seq<State>, steps: seq<Step>, k: nat, id: string)
    requires IsExecution(states, steps) && k < |states|
    requires forall n :: 0 <= n < k ==> !ForeignAbort(states[n], steps[n], id)
    ensures AbortedCeases(states[k], id)
  {
    hide Initial, Enabled, After, Base, EnginesFollow, WoundDown, AllTidy, Risen, Indexed, AbortedCeases, ForeignAbort;
    if k == 0 {
      NoRunsCease(states[0], id);
    } else {
      AlwaysCeases(states, steps, k - 1, id);
      AlwaysBase(states, steps, k - 1);
      StepAt(states, steps, k - 1);
      BaseParts(states[k - 1]);
      AbortedCeasesKept(states[k - 1], steps[k - 1], id);
    }
  }

  lemma NoRunsCease(s: State, id: string)
    requires Initial(s)
    ensures AbortedCeases(s, id)
  {
  }

  /** Unless a starter or a stopper wrote ABORTED to the row while a run held the entry and the row had come to
      RUNNING, an ABORTED row means that every launched run of the experiment is past its traffic, or one cancel away
      from it.  The repository may fail in any way. */
  lemma AbortedMeansCeasing(states: seq<State>, steps: seq<Step>, k: nat, i: nat)
    requires IsExecution(states, steps) && k < |states| && i < |states[k].runs| && Launched(states[k].runs[i])
    requires states[k].runs[i].id in states[k].rows && states[k].rows[states[k].runs[i].id].state == Aborted
    requires forall n :: 0 <= n < k ==> !ForeignAbort(states[n], steps[n], states[k].runs[i].id)
    ensures StressEnded(states[k], states[k].runs[i]) || states[k].runs[i].stressDone
        || states[k].runs[i].signal == ErrorSent
  {
    hide Initial, Enabled, After, ForeignAbort;
    AlwaysCeases(states, steps, k, states[k].runs[i].id);
  }

  // ---------------------------------------------------------------- rows

  /** Every row, in every execution: a legal history, strictly rising ranks, at most six writes. */
  lemma RowHistory(states: seq<State>, steps: seq<Step>, k: nat, id: string)
    requires IsExecution(states, steps) && k < |states| && id in states[k].rows
    ensures id in states[k].born && IsHistory(states[k].born[id].state, History(states[k], id))
    ensures states[k].rows[id] == Replay(states[k].born[id], History(states[k], id))
    ensures var ws := History(states[k], id);
      && |ws| <= 6 && (forall i, j :: 0 <= i < j < |ws| ==> Rank(ws[i].target) < Rank(ws[j].target))
      && (forall i :: 0 <= i < |ws| - 1 ==> !IsTerminal(ws[i].target))
  {
    hide Initial, Enabled, After, Tokens, Accounted, EnginesFollow, WoundDown, Replay, IsHistory;
    AlwaysBase(states, steps, k);
    assert RowTold(states[k], id);
    HistoryShape(states[k].born[id].state, History(states[k], id));
  }

  /** A terminal row never changes again. */
  lemma {:induction false} TerminalForever(states: seq<State>, steps: seq<Step>, k: nat, m: nat, id: string)
    requires IsExecution(states, steps) && k <= m < |states|
    requires id in states[k].rows && IsTerminal(states[k].rows[id].state)
    ensures id in states[m].rows && states[m].rows[id] == states[k].rows[id]
    decreases m - k
  {
    hide Initial, Enabled, After, Tokens, Accounted, EnginesFollow, WoundDown, RowTold;
    if k < m {
      TerminalForever(states, steps, k, m - 1, id);
      AlwaysBase(states, steps, m - 1);
      StepAt(states, steps, m - 1);
      RowsAlwaysAdvance(states[m - 1], steps[m - 1]);
    }
  }

  /** The columns of a row this manager created tell its history. */
  lemma CreatedRowColumns(states: seq<State>, steps: seq<Step>, k: nat, id: string)
    requires IsExecution(states, steps) && k < |states| && id in states[k].rows && id in states[k].born
    requires states[k].born[id] == NewRow(states[k].born[id].config)
    ensures var row, ws := states[k].rows[id], History(states[k], id);
      && row.stopReason == LastReason(ws)
      && (row.startedAt.None? <==> forall i :: 0 <= i < |ws| ==> ws[i].target != Running)
      && (forall i :: 0 <= i < |ws| && ws[i].target == Running ==> row.startedAt == Some(ws[i].now))
      && (row.endedAt.None? <==> !IsTerminal(row.state))
      && (IsTerminal(row.state) ==> ws != [] && row.endedAt == Some(ws[|ws| - 1].now))
  {
    hide Initial, Enabled, After, IsExecution;
    RowHistory(states, steps, k, id);
    ColumnsTellHistory(states[k].born[id].config, History(states[k], id));
  }

  // ---------------------------------------------------------------- results

  /** A row completed by this manager has a saved report, and its numbers are the analysis of its own observations. */
  lemma CompletedHasReport(states: seq<State>, steps: seq<Step>, k: nat, id: string)
    requires IsExecution(states, steps) && k < |states| && id in states[k].rows && id in states[k].born
    requires states[k].rows[id].state == Completed && states[k].born[id].state != Completed
    ensures id in states[k].reports && states[k].reports[id].experimentId == id
    ensures states[k].reports[id].result
        == states[k].setup.analyze(states[k].reports[id].observations, states[k].rows[id].config.policy)
  {
    hide Initial, Enabled, After, Tokens, Told, EnginesFollow, WoundDown, Informed, Carries;
    AlwaysBase(states, steps, k);
  }

  /** The configured analyzer computes what Analyze computes over this sorting function. */
  ghost predicate AnalyzesOver(setup: Setup, sorted: seq<Observation> -> seq<Observation>) {
    forall obs, policy :: CapacityAnalyzer.IsAnalysis(obs, sorted(obs), policy, setup.analyze(obs, policy))
  }

  /** So the five numbers of a saved report mean what the capacity analysis proves of them, over the report's own
      observations and the experiment's own policy. */
  lemma CompletedNumbersAreAnalysis(states: seq<State>, steps: seq<Step>, k: nat, id: string,
                                    sorted: seq<Observation> -> seq<Observation>)
    requires IsExecution(states, steps) && k < |states| && id in states[k].rows && id in states[k].born
    requires states[k].rows[id].state == Completed && states[k].born[id].state != Completed
    requires AnalyzesOver(states[k].setup, sorted)
    ensures id in states[k].reports
    ensures var report := states[k].reports[id];
      CapacityAnalyzer.IsAnalysis(report.observations, sorted(report.observations), states[k].rows[id].config.policy,
                                  report.result)
  {
    hide IsExecution, CapacityAnalyzer.IsAnalysis;
    CompletedHasReport(states, steps, k, id);
  }

  /** Results are produced only after traffic has stopped: in ANALYZING, REPORTING and COMPLETED every launched run of
      the experiment has a cancelled stress context or a returned engine call. */
  lemma AnalysisInQuiet(states: seq<State>, steps: seq<Step>, hazards: set<Hazard>, k: nat, i: nat)
    requires IsExecution(states, steps) && Within(states, steps, hazards) && LostAbort !in hazards
    requires k < |states| && i < |states[k].runs|
    requires Launched(states[k].runs[i]) && states[k].runs[i].id in states[k].rows
    requires states[k].rows[states[k].runs[i].id].state in {Analyzing, Reporting, Completed}
    ensures StressEnded(states[k], states[k].runs[i]) || states[k].runs[i].stressDone
  {
    hide Initial, Enabled, After, Sound, Permitted;
    AlwaysSound(states, steps, hazards, k);
  }

  // ---------------------------------------------------------------- termination

  function OwnSteps(steps: seq<Step>, i: nat): nat {
    if steps == [] then 0 else OwnSteps(steps[..|steps| - 1], i) + (if Own(steps[|steps| - 1], i) then 1 else 0)
  }

  /** However others interleave, a launched run's goroutines take at most Remaining steps from any point on. */
  lemma {:induction false} OwnStepsBounded(states: seq<State>, steps: seq<Step>, k: nat, m: nat, i: nat)
    requires IsExecution(states, steps) && k <= m < |states| && i < |states[k].runs|
    ensures i < |states[m].runs|
    ensures OwnSteps(steps[k..m], i) + Remaining(states[m].runs[i]) <= Remaining(states[k].runs[i])
    decreases m - k
  {
    hide Initial, Enabled, After, Base, EnginesFollow, WoundDown, Remaining, Own;
    if k == m {
      assert steps[k..m] == [];
    } else {
      OwnStepsBounded(states, steps, k, m - 1, i);
      AlwaysBase(states, steps, m - 1);
      StepAt(states, steps, m - 1);
      RunRises(states[m - 1], steps[m - 1], i);
      assert steps[k..m][..m - 1 - k] == steps[k..m - 1];
      assert steps[k..m][m - 1 - k] == steps[m - 1];
    }
  }

  /** From any point of any execution, a run whose stress context is over and whose finisher has not come to its
      release, or has left the row terminal, can be brought to a terminal row and a released token by its own
      goroutines alone, if no call fails from there on. */
  lemma RunCanComplete(states: seq<State>, steps: seq<Step>, k: nat, i: nat)
    returns (rest: seq<State>, own: seq<Step>)
    requires IsExecution(states, steps) && k < |states| && i < |states[k].runs|
    requires Launched(states[k].runs[i]) && StressEnded(states[k], states[k].runs[i])
    requires Concluded(states[k], states[k].runs[i])
    ensures IsTrace(Next, rest, own) && rest[0] == states[k] && |own| <= Remaining(states[k].runs[i])
    ensures forall n :: 0 <= n < |own| ==> Own(own[n], i)
    ensures var end := rest[|own|];
      && i < |end.runs| && end.runs[i].finisher == Finished
      && end.runs[i].id in end.rows && IsTerminal(end.rows[end.runs[i].id].state)
      && !(end.runs[i].id in end.active && end.active[end.runs[i].id] == i)
  {
    hide Initial, Enabled, After, Base, EnginesFollow, WoundDown, AllTidy, Risen, Indexed;
    AlwaysBase(states, steps, k);
    rest, own := FinisherCompletes(states[k], i);
  }
}
