/** Traffic is launched at most once per experiment as long as a finisher's abort of a row in RUNNING reaches the table.

    The equal-state shortcut of transitionState lets several starters pass PLANNED, and a lost acknowledgement lets
    one pass RUNNING, so this rests on the token and on one fact about the row: a run that has given the token up
    has left the row past RUNNING, from where no starter can enter it. */
module ExperimentLaunch {
  import opened Lifecycle
  import opened ExperimentProtocol
  import opened ExperimentFrames
  import opened ExperimentSafety

  /** A finisher's abort of a row in RUNNING that does not reach the table: its read failed, or its write failed without
      being applied. */
  predicate LosesAbort(s: State, step: Step) {
    && step.Finish? && step.i < |s.runs| && s.runs[step.i].finisher.Aborting?
    && !step.io.IoOk? && step.io != WriteFails(true)
    && s.runs[step.i].id in s.rows && s.rows[s.runs[step.i].id].state == Running
  }

  /** A starter's move to RUNNING that is applied although the call fails. */
  predicate LosesEntry(s: State, step: Step) {
    step.Start? && step.i < |s.runs| && s.runs[step.i].starter == Entering && step.io == WriteFails(true)
  }

  predicate Released(pc: FinisherPc) {
    pc in {Releasing, CancellingContext, Finished}
  }

  /** A finisher gives the token up only with its row past RUNNING. */
  ghost predicate Settled(s: State, r: Run) {
    Released(r.finisher) && r.id in s.rows ==> Rank(s.rows[r.id].state) >= 3
  }

  ghost predicate OneTraffic(runs: seq<Run>) {
    forall i, j :: 0 <= i < |runs| && 0 <= j < |runs|
      && runs[i].id == runs[j].id && Traffic(runs[i]) && Traffic(runs[j])
      ==> i == j
  }

  ghost predicate LaunchOnce(s: State) {
    (forall i :: 0 <= i < |s.runs| ==> Settled(s, s.runs[i])) && OneTraffic(s.runs)
  }

  /** The invariants that hold whatever the repository does. */
  ghost predicate Base(s: State) {
    Told(s) && Tokens(s.runs, s.active) && Accounted(s)
  }

  lemma BaseParts(s: State)
    requires Base(s)
    ensures s.rows.Keys == s.born.Keys && Tokens(s.runs, s.active)
  {
  }

  // ---------------------------------------------------------------- the row outlives the token

  /** The row a starter has just entered RUNNING with is in RUNNING. */
  lemma EnteringIsNotAnalysed(s: State, step: Step)
    requires Enabled(s, step) && step.Start? && s.runs[step.i].starter == Entering
    requires StartRun(s, step).starter == Launching
    ensures var id := s.runs[step.i].id; id in After(s, step).rows && After(s, step).rows[id].state == Running
  {
    hide Logged, After;
    RowsFrame(s, step);
  }

  /** A row has come to RUNNING once a run of its experiment has traffic on record. */
  ghost predicate Risen(s: State) {
    forall i :: 0 <= i < |s.runs| && Traffic(s.runs[i]) ==>
      s.runs[i].id in s.rows && Rank(s.rows[s.runs[i].id].state) >= 2
  }

  lemma RisenKept(s: State, step: Step)
    requires Enabled(s, step) && s.rows.Keys == s.born.Keys && Tokens(s.runs, s.active) && Risen(s)
    ensures Risen(After(s, step))
  {
    hide Enabled, After, Tokens, Traffic;
    var s' := After(s, step);
    RowsAlwaysAdvance(s, step);
    forall j | 0 <= j < |s'.runs| && Traffic(s'.runs[j])
      ensures s'.runs[j].id in s'.rows && Rank(s'.rows[s'.runs[j].id].state) >= 2
    {
      if j < |s.runs| && Traffic(s.runs[j]) {
        TrafficStays(s, step, j);
      } else {
        NewTraffic(s, step, j);
        StartsWithId(s, step);
        EnteringIsNotAnalysed(s, step);
      }
    }
  }

  lemma SettledLater(s: State, s': State, r: Run, r': Run)
    requires RowsAdvance(s, s') && Settled(s, r) && Informed(s, r) && Shaped(r)
    requires r'.id == r.id && (r'.finisher == r.finisher || r'.finisher == Polling)
    ensures Settled(s', r')
  {
  }

  /** A finisher comes to its release by a completed row, or by an abort that reached the table or came late. */
  lemma ReleasesPastRunning(s: State, step: Step)
    requires FinishEnabled(s, step) && !LosesAbort(s, step) && s.runs[step.i].id in s.rows
    requires Rank(s.rows[s.runs[step.i].id].state) >= 2 && FinishNext(s, step) == Releasing
    ensures var id := s.runs[step.i].id; Rank(ApplyWrite(s.rows, id, FinishVerdict(s, step).write)[id].state) >= 3
  {
    hide Stored;
  }

  lemma FinishSettles(s: State, step: Step)
    requires Enabled(s, step) && step.Finish? && !LosesAbort(s, step) && s.rows.Keys == s.born.Keys && Risen(s)
    requires Informed(s, s.runs[step.i]) && Settled(s, s.runs[step.i]) && Shaped(s.runs[step.i])
    ensures Settled(After(s, step), FinishRun(s, step))
  {
    hide After, RowsAdvance, Logged, LosesAbort, FinishVerdict, ApplyWrite, FinishNext, Rank;
    RowsAlwaysAdvance(s, step);
    RankStays(s, After(s, step), s.runs[step.i].id);
    RowsFrame(s, step);
    FinishMoves(s, step);
    if FinishNext(s, step) == Releasing {
      ReleasesPastRunning(s, step);
    }
  }

  lemma RankStays(s: State, s': State, id: string)
    requires RowsAdvance(s, s') && id in s.rows
    ensures id in s'.rows && Rank(s.rows[id].state) <= Rank(s'.rows[id].state)
  {
  }

  lemma StartKeepsFinisher(s: State, step: Step)
    requires Enabled(s, step) && step.Start?
    ensures StartRun(s, step).id == s.runs[step.i].id
    ensures StartRun(s, step).finisher == s.runs[step.i].finisher || StartRun(s, step).finisher == Polling
  {
    hide StartVerdict, StartNext;
  }

  lemma SettledKept(s: State, step: Step, j: nat)
    requires Enabled(s, step) && !LosesAbort(s, step) && Base(s) && LaunchOnce(s) && Risen(s)
    requires j < |After(s, step).runs|
    ensures Settled(After(s, step), After(s, step).runs[j])
  {
    hide Enabled, After, Settled, Informed, Carries, RowTold, StartRun, FinishRun, RowsAdvance, Reported, OneTraffic,
        LosesAbort;
    var s' := After(s, step);
    TokensShape(s.runs, s.active);
    RowsAlwaysAdvance(s, step);
    if step.BeginStart? && j == |s.runs| {
      BeginStartFrame(s, step);
      NewRunSettled(s', step.id);
    } else {
      CoreOf(s, step, j);
      if step.Start? && j == step.i {
        StartKeepsFinisher(s, step);
        StartFrame(s, step);
        SettledLater(s, s', s.runs[j], s'.runs[j]);
      } else if step.Finish? && j == step.i {
        FinishSettles(s, step);
        FinishFrame(s, step);
      } else {
        SettledLater(s, s', s.runs[j], s'.runs[j]);
      }
    }
  }

  lemma NewRunSettled(s: State, id: string)
    ensures Settled(s, NewRun(id))
  {
  }

  // ---------------------------------------------------------------- one run with traffic

  /** A starter that goes on to launch holds the token, and its row is not terminal. */
  lemma EntersHolding(s: State, step: Step)
    requires Enabled(s, step) && step.Start? && s.runs[step.i].starter == Entering
    requires StartRun(s, step).starter == Launching
    requires Tokens(s.runs, s.active)
    ensures var id := s.runs[step.i].id;
      && id in s.active && s.active[id] == step.i
      && id in s.rows && s.rows[id].state in {Planned, Running}
  {
    assert Shaped(s.runs[step.i]) && Holds(s.runs[step.i]);
  }

  /** Once its traffic is on, a run keeps it on record. */
  lemma TrafficStays(s: State, step: Step, j: nat)
    requires Enabled(s, step) && Tokens(s.runs, s.active) && j < |s.runs| && Traffic(s.runs[j])
    ensures j < |After(s, step).runs| && Traffic(After(s, step).runs[j]) && After(s, step).runs[j].id == s.runs[j].id
  {
    hide Tokens, FinishRun, StartVerdict, FinishVerdict, QuietRuns, Holds, After;
    TokensShape(s.runs, s.active);
    RunsNeverShrink(s, step);
    CoreOf(s, step, j);
    if step.Start? && j == step.i {
      StartFrame(s, step);
    } else if step.Finish? && j == step.i {
      FinishFrame(s, step);
      FinishToken(s, step);
    }
  }

  /** The one step that turns traffic on. */
  lemma NewTraffic(s: State, step: Step, j: nat)
    requires Enabled(s, step) && Tokens(s.runs, s.active) && j < |After(s, step).runs|
    requires Traffic(After(s, step).runs[j]) && !(j < |s.runs| && Traffic(s.runs[j]))
    ensures step.Start? && j == step.i && s.runs[j].starter == Entering && StartRun(s, step).starter == Launching
  {
    hide Tokens, FinishRun, StartVerdict, FinishVerdict, QuietRuns, Holds, After;
    TokensShape(s.runs, s.active);
    if step.BeginStart? && j == |s.runs| {
      BeginStartFrame(s, step);
    } else {
      CoreOf(s, step, j);
      if step.Start? && j == step.i {
        StartFrame(s, step);
      } else if step.Finish? && j == step.i {
        FinishFrame(s, step);
        FinishToken(s, step);
      }
    }
  }

  /** Among the runs of one experiment only the token's holder and runs that gave it up have traffic on record. */
  lemma PastHolder(s: State, i: nat, j: nat)
    requires Tokens(s.runs, s.active) && i < |s.runs| && j < |s.runs| && s.runs[i].id == s.runs[j].id && i != j
    requires Traffic(s.runs[i]) && Holds(s.runs[j])
    ensures Launched(s.runs[i]) && s.runs[i].finisher in {CancellingContext, Finished}
    ensures Settled(s, s.runs[i]) && s.runs[i].id in s.rows ==> Rank(s.rows[s.runs[i].id].state) >= 3
  {
    assert !Holds(s.runs[i]);
  }

  lemma TrafficPair(s: State, step: Step, i: nat, j: nat)
    requires Enabled(s, step) && Tokens(s.runs, s.active) && LaunchOnce(s)
    requires i < |s.runs| && Traffic(s.runs[i]) && j < |After(s, step).runs| && Traffic(After(s, step).runs[j])
    requires After(s, step).runs[j].id == s.runs[i].id
    ensures i == j
  {
    hide Enabled, After, StartRun, Traffic;
    if j < |s.runs| && Traffic(s.runs[j]) {
      TrafficStays(s, step, j);
    } else {
      NewTraffic(s, step, j);
      EntersHolding(s, step);
      StartsWithId(s, step);
      assert Shaped(s.runs[j]) && Holds(s.runs[j]) && Settled(s, s.runs[i]);
      if i != j {
        PastHolder(s, i, j);
      }
    }
  }

  lemma StartsWithId(s: State, step: Step)
    requires Enabled(s, step) && step.Start?
    ensures step.i < |s.runs| && After(s, step).runs[step.i].id == s.runs[step.i].id
  {
    StartFrame(s, step);
    StartKeepsId(s, step);
  }

  lemma OneTrafficKept(s: State, step: Step)
    requires Enabled(s, step) && Tokens(s.runs, s.active) && LaunchOnce(s)
    ensures OneTraffic(After(s, step).runs)
  {
    hide Enabled, After, Tokens, Traffic;
    var runs' := After(s, step).runs;
    forall i, j | 0 <= i < |runs'| && 0 <= j < |runs'| && runs'[i].id == runs'[j].id && Traffic(runs'[i])
        && Traffic(runs'[j])
      ensures i == j
    {
      if i < |s.runs| && Traffic(s.runs[i]) {
        TrafficStays(s, step, i);
        TrafficPair(s, step, i, j);
      } else if j < |s.runs| && Traffic(s.runs[j]) {
        TrafficStays(s, step, j);
        TrafficPair(s, step, j, i);
      } else {
        NewTraffic(s, step, i);
        NewTraffic(s, step, j);
      }
    }
  }

  /** Every other call may fail in any way: starters', stoppers' and handlers' calls, and a finisher's other calls. */
  lemma LaunchOnceKept(s: State, step: Step)
    requires Enabled(s, step) && !LosesAbort(s, step) && Base(s) && Risen(s) && LaunchOnce(s)
    ensures LaunchOnce(After(s, step))
  {
    hide Enabled, After, Base, Risen, Settled, OneTraffic, LosesAbort;
    forall j | 0 <= j < |After(s, step).runs| ensures Settled(After(s, step), After(s, step).runs[j]) {
      SettledKept(s, step, j);
    }
    BaseParts(s);
    OneTrafficKept(s, step);
  }

  // ---------------------------------------------------------------- RUNNING is entered from PLANNED

  /** A row this manager moved to RUNNING is held by a run whose traffic is on. */
  ghost predicate RunningHeld(s: State) {
    forall id :: id in s.rows && id in s.born && s.rows[id].state == Running && s.born[id].state == Created ==>
      id in s.active && s.active[id] < |s.runs| && Traffic(s.runs[s.active[id]])
  }

  /** While no move to RUNNING loses its acknowledgement, the equal-state shortcut is never taken there. */
  lemma EntersFromPlanned(s: State, step: Step)
    requires Enabled(s, step) && step.Start? && s.runs[step.i].starter == Entering
    requires StartRun(s, step).starter == Launching
    requires Tokens(s.runs, s.active) && Informed(s, s.runs[step.i]) && RunningHeld(s)
    ensures s.runs[step.i].id in s.rows && s.rows[s.runs[step.i].id].state == Planned
  {
    hide StartRun, Tokens;
    EntersHolding(s, step);
    TokensShape(s.runs, s.active);
  }

  lemma CameToRun(s: State, step: Step, id: string)
    requires Enabled(s, step) && !LosesEntry(s, step) && s.rows.Keys == s.born.Keys
    requires var s' := After(s, step);
        id in s'.rows && id in s'.born && s'.rows[id].state == Running && s'.born[id].state == Created
    ensures id in s.rows && id in s.born && s.born[id].state == Created
    ensures s.rows[id].state == Running
         || (step.Start? && s.runs[step.i].starter == Entering && s.runs[step.i].id == id && StartVerdict(s, step).ok)
  {
    hide FinishVerdict, StopWrite, StartRun, FinishRun, Logged;
    if !step.Create? {
      RowsFrame(s, step);
      if StepWrite(s, step).Some? {
        WriteIsLegal(s, step);
      }
    }
  }

  /** A RUNNING row keeps its entry: whoever could remove it has no traffic, or has left the row past it. */
  lemma StillHeld(s: State, step: Step, id: string)
    requires Enabled(s, step) && Tokens(s.runs, s.active) && RunningHeld(s) && id in s.rows && id in s.born
    requires forall i :: 0 <= i < |s.runs| ==> Settled(s, s.runs[i])
    requires s.rows[id].state == Running && s.born[id].state == Created
    ensures id in s.active && s.active[id] < |s.runs| && Traffic(s.runs[s.active[id]])
    ensures id in After(s, step).active && After(s, step).active[id] == s.active[id]
  {
    hide After, Enabled;
    TokensShape(s.runs, s.active);
    if !(id in After(s, step).active && After(s, step).active[id] == s.active[id]) {
      OnlyHolderReleases(s, step, id);
    }
  }

  /** The starter that just moved the row to RUNNING holds its entry. */
  lemma NowHeld(s: State, step: Step, id: string)
    requires Enabled(s, step) && step.Start? && s.runs[step.i].starter == Entering && s.runs[step.i].id == id
    requires Tokens(s.runs, s.active) && StartVerdict(s, step).ok
    ensures var s' := After(s, step);
        id in s'.active && s'.active[id] == step.i && step.i < |s'.runs| && Traffic(s'.runs[step.i])
  {
    hide StartVerdict, After;
    assert Holds(s.runs[step.i]);
    StartFrame(s, step);
  }

  lemma RunningHeldKept(s: State, step: Step)
    requires Enabled(s, step) && !LosesEntry(s, step) && s.rows.Keys == s.born.Keys && Tokens(s.runs, s.active)
    requires RunningHeld(s) && forall i :: 0 <= i < |s.runs| ==> Settled(s, s.runs[i])
    ensures RunningHeld(After(s, step))
  {
    hide Enabled, After, Tokens, Traffic, Settled, LosesEntry;
    var s' := After(s, step);
    forall id | id in s'.rows && id in s'.born && s'.rows[id].state == Running && s'.born[id].state == Created
      ensures id in s'.active && s'.active[id] < |s'.runs| && Traffic(s'.runs[s'.active[id]])
    {
      CameToRun(s, step, id);
      if s.rows[id].state == Running {
        StillHeld(s, step, id);
        TokensIndexed(s.runs, s.active);
        TrafficStays(s, step, s.active[id]);
      } else {
        NowHeld(s, step, id);
      }
    }
  }

  lemma BaseKept(s: State, step: Step)
    requires Enabled(s, step) && Base(s)
    ensures Base(After(s, step))
  {
    hide Enabled, After, Told, Tokens, Accounted;
    ToldKept(s, step);
    TokensKept(s, step);
    AccountedKept(s, step);
  }
}
