/** What an ABORTED row says about traffic.

    Three callers write ABORTED: a finisher, a starter that gives up before launching, and a StopExperiment that takes
    the run for orphaned.  Only the finisher has seen its own run wind down; the others do harm when a run holds the
    entry over a row that has come to RUNNING. */
module ExperimentAborts {
  import opened Lifecycle
  import opened ExperimentProtocol
  import opened ExperimentFrames
  import opened ExperimentSafety
  import opened ExperimentLaunch
  import opened ExperimentProgress

  /** Traffic is over, or signalFailure has sent its error and is about to cancel the stress context. */
  predicate Ceasing(s: State, r: Run) {
    Quiet(s, r) || r.signal == ErrorSent
  }

  /** A run holds the activeRuns entry over a row that has come to RUNNING or further. */
  predicate Contested(s: State, id: string) {
    id in s.active && id in s.rows && Rank(s.rows[id].state) >= 2
  }

  /** A starter that gives up writes ABORTED to a contested row. */
  predicate AbandonAborts(s: State, step: Step) {
    && step.Start? && step.i < |s.runs| && s.runs[step.i].starter.Abandoning?
    && StartVerdict(s, step).write.Some? && Contested(s, s.runs[step.i].id)
  }

  /** A StopExperiment that found no active run writes ABORTED to a row contested since. */
  predicate OrphanStopAborts(s: State, step: Step) {
    && StopEnabled(s, step) && s.stops[step.k].pc == ToAborted
    && StopWrite(s, step).Some? && Contested(s, s.stops[step.k].id)
  }

  /** ABORTED is written to this row, contested as it is, by someone other than a finisher. */
  ghost predicate ForeignAbort(s: State, step: Step, id: string) {
    Enabled(s, step) && StepId(s, step) == id && (AbandonAborts(s, step) || OrphanStopAborts(s, step))
  }

  // ---------------------------------------------------------------- each finisher ends in the quiet

  predicate Ending(pc: FinisherPc) {
    pc.Halting? || pc.Aborting? || pc in {Releasing, CancellingContext, Finished}
  }

  ghost predicate Tidy(s: State, r: Run) {
    && (r.startErr.Some? ==> r.signal != Unsignalled)
    && (r.signal in {StressCancelled, Signalled} ==> r.stressCut)
    && (Ending(r.finisher) ==> Ceasing(s, r))
  }

  ghost predicate AllTidy(s: State) {
    forall i :: 0 <= i < |s.runs| ==> Tidy(s, s.runs[i])
  }

  /** All that Tidy looks at may only rise. */
  lemma TidyRises(s: State, s': State, r: Run, r': Run)
    requires Tidy(s, r) && (s.shutdown ==> s'.shutdown)
    requires (r.stressCut ==> r'.stressCut) && (r.expCut ==> r'.expCut) && (r.stressDone ==> r'.stressDone)
    requires r'.signal == r.signal && r'.startErr == r.startErr && (Ending(r'.finisher) ==> Ending(r.finisher))
    ensures Tidy(s', r')
  {
  }

  lemma FinishTidies(s: State, step: Step, s': State)
    requires Enabled(s, step) && step.Finish? && Tidy(s, s.runs[step.i]) && (s.shutdown ==> s'.shutdown)
    requires SuccessPath(s.runs[step.i].finisher) ==> Quiet(s, s.runs[step.i])
    ensures Tidy(s', FinishRun(s, step))
  {
    hide FinishVerdict, Stored;
  }

  lemma SignalTidies(s: State, step: Step, s': State)
    requires Enabled(s, step) && step.Signal? && Tidy(s, s.runs[step.i]) && (s.shutdown ==> s'.shutdown)
    ensures Tidy(s', SignalRun(s.runs[step.i], step.reason))
  {
  }

  lemma StartKeepsSignal(s: State, step: Step)
    requires Enabled(s, step) && step.Start?
    ensures var r, r' := s.runs[step.i], StartRun(s, step);
      && r'.signal == r.signal && r'.startErr == r.startErr && r'.stressDone == r.stressDone
      && (r.stressCut ==> r'.stressCut) && (r.expCut ==> r'.expCut)
      && (Ending(r'.finisher) ==> Ending(r.finisher))
  {
    hide StartVerdict, StartNext;
  }

  lemma EngineKeepsSignal(r: Run, result: EngineResult)
    ensures var r' := EngineRun(r, result);
      && r'.signal == r.signal && r'.startErr == r.startErr && r'.finisher == r.finisher && r'.expCut == r.expCut
      && (r.stressCut ==> r'.stressCut) && (r.stressDone ==> r'.stressDone)
  {
  }

  lemma TidyKept(s: State, step: Step, j: nat)
    requires Enabled(s, step) && EnginesFollow(s.runs) && WoundDown(s) && AllTidy(s) && j < |After(s, step).runs|
    ensures Tidy(After(s, step), After(s, step).runs[j])
  {
    hide After, Tidy, EnginesFollow, SuccessPath, Quiet, FinishRun, StartRun, EngineRun, SignalRun, QuietRuns, Ending;
    var s' := After(s, step);
    if s.shutdown {
      ShutdownStays(s, step);
    }
    if step.BeginStart? {
      BeginStartFrame(s, step);
      if j == |s.runs| {
        NewRunTidy(s', step.id);
      } else {
        TidyRises(s, s', s.runs[j], s.runs[j]);
      }
    } else if step.Start? {
      StartFrame(s, step);
      StartKeepsSignal(s, step);
      TidyRises(s, s', s.runs[j], s'.runs[j]);
    } else if step.Finish? {
      FinishFrame(s, step);
      if j == step.i {
        FinishTidies(s, step, s');
      } else {
        TidyRises(s, s', s.runs[j], s'.runs[j]);
      }
    } else {
      QuietRunsAre(s, step);
      QuietTidies(s, step, s', j);
    }
  }

  lemma QuietTidies(s: State, step: Step, s': State, j: nat)
    requires Enabled(s, step) && !step.BeginStart? && !step.Start? && !step.Finish?
    requires AllTidy(s) && (s.shutdown ==> s'.shutdown) && j < |QuietRuns(s, step)|
    ensures Tidy(s', QuietRuns(s, step)[j])
  {
    hide Tidy, SignalRun, EngineRun, Quiet, Ending;
    QuietRunsSame(s, step);
    assert SameCore(QuietRuns(s, step)[j], s.runs[j]);
    if step.Signal? {
      if j == step.i {
        SignalTidies(s, step, s');
      } else {
        TidyRises(s, s', s.runs[j], s.runs[j]);
      }
    } else if step.Engine? {
      EngineKeepsSignal(s.runs[step.i], step.result);
      TidyRises(s, s', s.runs[j], QuietRuns(s, step)[j]);
    } else {
      OthersRise(s, step, j);
      TidyRises(s, s', s.runs[j], QuietRuns(s, step)[j]);
    }
  }

  lemma NewRunTidy(s: State, id: string)
    ensures Tidy(s, NewRun(id))
  {
  }

  lemma CeasingStays(s: State, step: Step, j: nat)
    requires Enabled(s, step) && EnginesFollow(s.runs) && WoundDown(s) && AllTidy(s)
    requires j < |s.runs| && Ceasing(s, s.runs[j])
    ensures j < |After(s, step).runs| && Ceasing(After(s, step), After(s, step).runs[j])
  {
    hide After, Enabled, EnginesFollow, Rises, WoundDown, AllTidy, Remaining;
    RunsNeverShrink(s, step);
    if Quiet(s, s.runs[j]) {
      QuietStays(s, step, j);
    } else {
      TidyKept(s, step, j);
      SignalMoves(s, step, j);
    }
  }

  lemma SignalMoves(s: State, step: Step, j: nat)
    requires Enabled(s, step) && j < |s.runs| && j < |After(s, step).runs| && s.runs[j].signal == ErrorSent
    ensures After(s, step).runs[j].signal in {ErrorSent, StressCancelled}
  {
    hide After, FinishRun, StartRun, EngineRun, QuietRuns;
    if step.BeginStart? {
      BeginStartFrame(s, step);
    } else if step.Start? {
      StartFrame(s, step);
      StartKeepsSignal(s, step);
    } else if step.Finish? {
      FinishFrame(s, step);
      FinishKeepsSignal(s, step);
    } else {
      QuietRunsAre(s, step);
      QuietSignal(s, step, j);
    }
  }

  lemma FinishKeepsSignal(s: State, step: Step)
    requires Enabled(s, step) && step.Finish?
    ensures FinishRun(s, step).signal == s.runs[step.i].signal
  {
    hide FinishNext, TakesError;
  }

  lemma QuietSignal(s: State, step: Step, j: nat)
    requires Enabled(s, step) && !step.BeginStart? && !step.Start? && !step.Finish?
    requires j < |s.runs| && s.runs[j].signal == ErrorSent
    ensures j < |QuietRuns(s, step)| && QuietRuns(s, step)[j].signal in {ErrorSent, StressCancelled}
  {
    hide EngineRun;
    if step.Engine? {
      EngineKeepsSignal(s.runs[step.i], step.result);
    } else if !step.Signal? {
      OthersRise(s, step, j);
    }
  }

  // ---------------------------------------------------------------- the row

  /** Once the row is ABORTED, every run of the experiment with traffic on record is past its traffic. */
  ghost predicate AbortedCeases(s: State, id: string) {
    id in s.rows && s.rows[id].state == Aborted ==>
      forall i :: 0 <= i < |s.runs| && s.runs[i].id == id && Traffic(s.runs[i]) ==>
          Launched(s.runs[i]) && Ceasing(s, s.runs[i])
  }

  /** A row becomes ABORTED by the finisher holding the entry, by a write to a row no run contests, or by a hazard. */
  lemma AbortedBy(s: State, step: Step, id: string)
    requires Enabled(s, step) && id in After(s, step).rows && After(s, step).rows[id].state == Aborted
    requires !ForeignAbort(s, step, id)
    ensures id in s.rows
    ensures s.rows[id].state == Aborted || !Contested(s, id)
        || (FinishEnabled(s, step) && s.runs[step.i].id == id && s.runs[step.i].finisher.Aborting?)
  {
    hide FinishRun, StartRun, Logged, After, Contested;
    if step.Create? {
      CreatedRow(s, step, id);
    } else {
      RowsFrame(s, step);
    }
  }

  lemma CreatedRow(s: State, step: Step, id: string)
    requires Enabled(s, step) && step.Create? && id in After(s, step).rows && After(s, step).rows[id].state != Created
    ensures id in s.rows && After(s, step).rows[id] == s.rows[id]
  {
  }

  /** When a finisher aborts, every other run of its experiment with traffic on record has come to its end. */
  lemma AborterIsLast(s: State, i: nat, j: nat)
    requires Tokens(s.runs, s.active) && AllTidy(s) && i < |s.runs| && j < |s.runs|
    requires s.runs[i].finisher.Aborting? && Traffic(s.runs[j]) && s.runs[j].id == s.runs[i].id
    ensures Launched(s.runs[j]) && Ceasing(s, s.runs[j])
  {
    hide Ceasing, Tokens;
    assert Tidy(s, s.runs[i]) && Tidy(s, s.runs[j]);
    if i != j {
      assert Holds(s.runs[i]);
      PastHolder(s, j, i);
    }
  }

  /** Over a row no run contests, every run with traffic on record has given the entry up. */
  lemma UncontestedIsOver(s: State, id: string, j: nat)
    requires Tokens(s.runs, s.active) && AllTidy(s) && Risen(s) && !Contested(s, id)
    requires j < |s.runs| && Traffic(s.runs[j]) && s.runs[j].id == id
    ensures Launched(s.runs[j]) && Ceasing(s, s.runs[j])
  {
    hide Ceasing;
    assert !Holds(s.runs[j]) && Tidy(s, s.runs[j]);
  }

  lemma AbortedCeasesKept(s: State, step: Step, id: string)
    requires Enabled(s, step) && Tokens(s.runs, s.active) && EnginesFollow(s.runs) && WoundDown(s) && AllTidy(s)
    requires Risen(s) && AbortedCeases(s, id) && !ForeignAbort(s, step, id)
    ensures AbortedCeases(After(s, step), id)
  {
    hide Enabled, After, Tokens, EnginesFollow, WoundDown, AllTidy, Risen, Contested,
        Ceasing, Traffic, ForeignAbort;
    var s' := After(s, step);
    if id in s'.rows && s'.rows[id].state == Aborted {
      AbortedBy(s, step, id);
      forall j | 0 <= j < |s'.runs| && s'.runs[j].id == id && Traffic(s'.runs[j])
        ensures Launched(s'.runs[j]) && Ceasing(s', s'.runs[j])
      {
        if j < |s.runs| && Traffic(s.runs[j]) {
          TrafficStays(s, step, j);
          if s.rows[id].state != Aborted {
            if Contested(s, id) {
              AborterIsLast(s, step.i, j);
            } else {
              UncontestedIsOver(s, id, j);
            }
          }
          LaunchedStays(s, step, j);
          CeasingStays(s, step, j);
        } else {
          NewTraffic(s, step, j);
          StartsWithId(s, step);
          EnteringIsNotAnalysed(s, step);
        }
      }
    }
  }
}
