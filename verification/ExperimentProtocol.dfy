/** internal/experiment/manager.go as a state machine.

    Every goroutine has a program counter; a step is one call to the repository, one section under `mu` or one
    select.  transitionState is a single step because it holds stateMu throughout.  The i-th call of
    StartExperiment owns the i-th run: its two contexts, its channels and the goroutines it launches.
    Outcomes of calls into other components are parameters of the steps. */
module ExperimentProtocol {
  import opened CapacityModel
  import opened Executions
  import opened Lifecycle

  datatype Report = Report(experimentId: string, observations: seq<Observation>, result: CapacityResult)

  datatype StarterPc =
    | Reading | Planning | Graphing | Abandoning(reason: string) | Claiming | Entering
    | Undoing | Unclaiming | Launching | Returned

  datatype EnginePc = EngineOff | Generating | CuttingStress | EngineSignals | ClosingDone | EngineClosed

  datatype WatcherPc = WatcherOff | Connecting | WatcherSignals | WatcherSettled

  /** Progress of the sync.Once inside signalFailure. */
  datatype SignalPc = Unsignalled | ErrorSent | StressCancelled | Signalled

  datatype FinisherPc =
    | FinisherOff | Polling | Waiting | Halting(reason: string) | Aborting(reason: string)
    | HaltingEngine | Rereading | EnteringStopping | Recovering | HaltingWatcher | EnteringAnalyzing | Loading
    | EnteringReporting(observations: seq<Observation>, result: CapacityResult)
    | Compiling(observations: seq<Observation>, result: CapacityResult)
    | SavingReport(report: Report) | EnteringCompleted
    | Releasing | CancellingContext | Finished

  datatype Run = Run(id: string, config: Config, starter: StarterPc, engine: EnginePc, watcher: WatcherPc,
                     signal: SignalPc, startErr: Option<string>, stressDone: bool, stressCut: bool, expCut: bool,
                     finisher: FinisherPc)

  datatype StopPc = LookingUp | Cutting(run: nat) | ToStopping | Checking | ToAborted | StopReturned

  datatype StopCall = StopCall(id: string, reason: string, pc: StopPc)

  datatype HandlerPc = SavingObservation | CheckingLive | Judging | HandlerSignals | HandlerDone

  datatype HandlerCall = HandlerCall(run: nat, observation: Observation, pc: HandlerPc)

  /** Which collaborators are configured, and the analyzer's function. */
  datatype Setup = Setup(hasGraph: bool, hasEngine: bool, hasWatcher: bool, hasSafety: bool, hasAnalyzer: bool,
                         hasReporter: bool, analyze: (seq<Observation>, SafetyPolicy) -> CapacityResult)

  /** `born` and `writes` are bookkeeping: each row as first seen and the updates applied to it since. */
  datatype State = State(setup: Setup, rows: map<string, Row>, born: map<string, Row>, writes: map<string, seq<Write>>,
                         observations: map<string, seq<Observation>>, reports: map<string, Report>,
                         active: map<string, nat>, shutdown: bool, cancelList: set<nat>,
                         runs: seq<Run>, stops: seq<StopCall>, handlers: seq<HandlerCall>)

  datatype Pick = PickError | PickDone | PickContext | PickDefault | PickTimer | PickShutdown | Proceed(ok: bool)

  datatype EngineResult = NilResult | CancelledResult | FailedResult

  datatype Step =
    | Create(id: string, config: Config)
    | BeginStart(id: string)
    | Start(i: nat, ok: bool, reason: string, io: Io, now: int)
    | Engine(i: nat, result: EngineResult)
    | Watch(i: nat, ok: bool)
    | Signal(i: nat, reason: string)
    | Finish(i: nat, pick: Pick, reason: string, io: Io, now: int)
    | BeginStop(id: string, reason: string)
    | Stop(k: nat, io: Io, now: int)
    | BeginShutdown
    | CollectRuns
    | CancelRun(i: nat)
    | Snapshot(i: nat, observation: Observation)
    | Handle(h: nat, io: Io)

  // ---------------------------------------------------------------- derived notions

  predicate Launched(r: Run) {
    r.finisher != FinisherOff
  }

  /** expCtx is a child of the manager's shutdown context. */
  predicate ExpEnded(s: State, r: Run) {
    r.expCut || s.shutdown
  }

  /** stressCtx is a child of expCtx. */
  predicate StressEnded(s: State, r: Run) {
    r.stressCut || ExpEnded(s, r)
  }

  function History(s: State, id: string): seq<Write> {
    if id in s.writes then s.writes[id] else []
  }

  function Stored(s: State, id: string): seq<Observation> {
    if id in s.observations then s.observations[id] else []
  }

  function Logged(s: State, id: string, write: Option<Write>): map<string, seq<Write>> {
    if write.Some? && id in s.rows then s.writes[id := History(s, id) + [write.value]] else s.writes
  }

  function Without(active: map<string, nat>, id: string): map<string, nat> {
    map k | k in active && k != id :: active[k]
  }

  // ---------------------------------------------------------------- StartExperiment

  function NewRun(id: string): Run {
    Run(id, Config(SafetyPolicy(0.0, 0.0, 0.0), 0), Reading, EngineOff, WatcherOff, Unsignalled, None, false, false,
      false, FinisherOff)
  }

  function StartTarget(pc: StarterPc): ExperimentState {
    match pc
    case Planning => Planned
    case Entering => Running
    case _ => Aborted
  }

  predicate StartWrites(pc: StarterPc) {
    pc == Planning || pc == Entering || pc.Abandoning?
  }

  function StartVerdict(s: State, step: Step): Verdict
    requires step.Start? && step.i < |s.runs|
  {
    var r := s.runs[step.i];
    if StartWrites(r.starter) then
      var reason := if r.starter.Abandoning? then r.starter.reason else "";
      Decide(s.rows, r.id, StartTarget(r.starter), reason, step.now, step.io)
    else Verdict(true, None)
  }

  function StartNext(s: State, step: Step): StarterPc
    requires step.Start? && step.i < |s.runs|
  {
    var r, verdict := s.runs[step.i], StartVerdict(s, step);
    match r.starter
    case Reading => if step.io.ReadFails? || r.id !in s.rows || s.rows[r.id].state != Created then Returned
        else Planning
    case Planning => if verdict.ok then Graphing else Returned
    case Graphing =>
      if s.setup.hasGraph && !step.ok then Abandoning(step.reason)
      else if !s.setup.hasEngine then Abandoning("stress engine is nil")
      else if !s.setup.hasWatcher then Abandoning("watcher is nil")
      else Claiming
    case Abandoning(_) => Returned
    case Claiming => if r.id in s.active then Returned else Entering
    case Entering => if verdict.ok then Launching else Undoing
    case Undoing => Unclaiming
    case Unclaiming => Returned
    case Launching => Returned
    case Returned => Returned
  }

  /** Undoing cancels both contexts; Launching registers the handler and starts the three goroutines. */
  function StartRun(s: State, step: Step): Run
    requires step.Start? && step.i < |s.runs|
  {
    var r := s.runs[step.i];
    var launch := r.starter == Launching;
    r.(starter := StartNext(s, step),
       config := if r.starter == Reading && r.id in s.rows then s.rows[r.id].config else r.config,
       stressCut := r.stressCut || r.starter == Undoing,
       expCut := r.expCut || r.starter == Undoing,
       engine := if launch then Generating else r.engine,
       watcher := if launch then Connecting else r.watcher,
       finisher := if launch then Polling else r.finisher)
  }

  function StartActive(s: State, i: nat): map<string, nat>
    requires i < |s.runs|
  {
    var r := s.runs[i];
    if r.starter == Claiming && r.id !in s.active then s.active[r.id := i]
    else if r.starter == Unclaiming then Without(s.active, r.id)
    else s.active
  }

  function StartAfter(s: State, step: Step): State
    requires step.Start? && step.i < |s.runs|
  {
    var id, write := s.runs[step.i].id, StartVerdict(s, step).write;
    s.(rows := ApplyWrite(s.rows, id, write), writes := Logged(s, id, write),
       runs := s.runs[step.i := StartRun(s, step)], active := StartActive(s, step.i))
  }

  // ---------------------------------------------------------------- engine, watcher and failure signal

  predicate EngineEnabled(s: State, step: Step) {
    && step.Engine? && step.i < |s.runs|
    && var r := s.runs[step.i];
    && r.engine !in {EngineOff, EngineClosed}
    && (r.engine == EngineSignals ==> r.signal == Signalled)
  }

  function EngineRun(r: Run, result: EngineResult): Run {
    match r.engine
    case Generating =>
      r.(engine := match result
                   case NilResult => CuttingStress
                   case CancelledResult => ClosingDone
                   case FailedResult => EngineSignals)
    case CuttingStress => r.(engine := ClosingDone, stressCut := true)
    case EngineSignals => r.(engine := ClosingDone)
    case ClosingDone => r.(engine := EngineClosed, stressDone := true)
    case _ => r
  }

  function WatchRun(r: Run, ok: bool): Run {
    r.(watcher := if r.watcher == Connecting && !ok then WatcherSignals else WatcherSettled)
  }

  ghost predicate HandlerWaits(s: State, i: nat) {
    exists h :: 0 <= h < |s.handlers| && s.handlers[h].run == i && s.handlers[h].pc == HandlerSignals
  }

  ghost predicate SignalEnabled(s: State, step: Step) {
    && step.Signal? && step.i < |s.runs| && step.reason != ""
    && var r := s.runs[step.i];
    && r.signal != Signalled
    && (r.signal != Unsignalled || r.engine == EngineSignals || r.watcher == WatcherSignals || HandlerWaits(s, step.i))
  }

  function SignalRun(r: Run, reason: string): Run {
    match r.signal
    case Unsignalled => r.(signal := ErrorSent, startErr := Some(reason))
    case ErrorSent => r.(signal := StressCancelled, stressCut := true)
    case StressCancelled => r.(signal := Signalled, expCut := true)
    case Signalled => r
  }

  // ---------------------------------------------------------------- finishExperiment

  predicate FinishWrites(pc: FinisherPc) {
    || pc.Aborting? || pc == EnteringStopping || pc == EnteringAnalyzing || pc.EnteringReporting?
      || pc == EnteringCompleted
  }

  function FinishTarget(pc: FinisherPc): ExperimentState {
    match pc
    case EnteringStopping => Stopping
    case EnteringAnalyzing => Analyzing
    case EnteringReporting(_, _) => Reporting
    case EnteringCompleted => Completed
    case _ => Aborted
  }

  function FinishVerdict(s: State, step: Step): Verdict
    requires step.Finish? && step.i < |s.runs|
  {
    var r := s.runs[step.i];
    if FinishWrites(r.finisher) then
      var reason := if r.finisher.Aborting? then r.finisher.reason else "";
      Decide(s.rows, r.id, FinishTarget(r.finisher), reason, step.now, step.io)
    else Verdict(true, None)
  }

  /** The select statements choose among the cases that are ready. */
  predicate FinishEnabled(s: State, step: Step) {
    && step.Finish? && step.i < |s.runs|
    && var r := s.runs[step.i];
    match r.finisher
    case FinisherOff => false
    case Finished => false
    case Polling => (step.pick == PickError && r.startErr.Some?) || (step.pick == PickDefault && r.startErr.None?)
    case Waiting =>
      || (step.pick == PickError && r.startErr.Some?)
      || (step.pick == PickDone && r.stressDone)
      || (step.pick == PickContext && ExpEnded(s, r))
    case Recovering => step.pick == PickTimer || (step.pick == PickShutdown && s.shutdown)
    case _ => step.pick.Proceed?
  }

  function AfterStopping(config: Config): FinisherPc {
    if config.recoveryWindowSec > 0 then Recovering else HaltingWatcher
  }

  /** The receive on startErrs is the case taken. */
  predicate TakesError(r: Run, pick: Pick) {
    r.startErr.Some? && (r.finisher == Polling || (r.finisher == Waiting && pick == PickError))
  }

  function FinishNext(s: State, step: Step): FinisherPc
    requires step.Finish? && step.i < |s.runs|
  {
    var r, verdict := s.runs[step.i], FinishVerdict(s, step);
    match r.finisher
    case FinisherOff => FinisherOff
    case Polling => if TakesError(r, step.pick) then Halting(r.startErr.value) else Waiting
    case Waiting => if TakesError(r, step.pick) then Halting(r.startErr.value) else HaltingEngine
    case Halting(reason) => Aborting(reason)
    case Aborting(_) => Releasing
    case HaltingEngine => Rereading
    case Rereading =>
      if step.io.ReadFails? || r.id !in s.rows then Aborting(step.reason)
      else if s.rows[r.id].state != Stopping then EnteringStopping
      else AfterStopping(r.config)
    case EnteringStopping => if verdict.ok then AfterStopping(r.config) else Aborting(step.reason)
    case Recovering => if step.pick == PickTimer then HaltingWatcher else Aborting("manager shutdown")
    case HaltingWatcher => EnteringAnalyzing
    case EnteringAnalyzing => if verdict.ok then Loading else Aborting(step.reason)
    case Loading =>
      if step.io.ReadFails? then Aborting(step.reason)
      else if !s.setup.hasAnalyzer then Aborting("capacity analyzer is nil")
      else if !s.setup.hasReporter then Aborting("report engine is nil")
      else EnteringReporting(Stored(s, r.id), s.setup.analyze(Stored(s, r.id), r.config.policy))
    case EnteringReporting(obs, result) => if verdict.ok then Compiling(obs, result) else Aborting(step.reason)
    case Compiling(obs, result) => if step.pick == Proceed(true) then SavingReport(Report(r.id, obs, result))
        else Aborting(step.reason)
    case SavingReport(_) => if step.io.IoOk? then EnteringCompleted else Aborting(step.reason)
    case EnteringCompleted => if verdict.ok then Releasing else Aborting(step.reason)
    case Releasing => CancellingContext
    case CancellingContext => Finished
    case Finished => Finished
  }

  function FinishRun(s: State, step: Step): Run
    requires step.Finish? && step.i < |s.runs|
  {
    var r := s.runs[step.i];
    r.(finisher := FinishNext(s, step),
       startErr := if TakesError(r, step.pick) then None else r.startErr,
       expCut := r.expCut || r.finisher == CancellingContext)
  }

  function FinishActive(s: State, i: nat): map<string, nat>
    requires i < |s.runs|
  {
    if s.runs[i].finisher == Releasing then Without(s.active, s.runs[i].id) else s.active
  }

  /** SaveReport replaces the report of the experiment. */
  function FinishReports(s: State, step: Step): map<string, Report>
    requires step.Finish? && step.i < |s.runs|
  {
    var r := s.runs[step.i];
    if r.finisher.SavingReport? && (step.io.IoOk? || step.io == WriteFails(true))
    then s.reports[r.id := r.finisher.report]
    else s.reports
  }

  function FinishAfter(s: State, step: Step): State
    requires step.Finish? && step.i < |s.runs|
  {
    var id, write := s.runs[step.i].id, FinishVerdict(s, step).write;
    s.(rows := ApplyWrite(s.rows, id, write), writes := Logged(s, id, write), reports := FinishReports(s, step),
       runs := s.runs[step.i := FinishRun(s, step)], active := FinishActive(s, step.i))
  }

  // ---------------------------------------------------------------- StopExperiment

  predicate StopEnabled(s: State, step: Step) {
    && step.Stop? && step.k < |s.stops| && s.stops[step.k].pc != StopReturned
    && (s.stops[step.k].pc.Cutting? ==> s.stops[step.k].pc.run < |s.runs|)
  }

  function StopNext(s: State, step: Step): StopPc
    requires StopEnabled(s, step)
  {
    var c := s.stops[step.k];
    match c.pc
    case LookingUp => if c.id in s.active then Cutting(s.active[c.id]) else Checking
    case Cutting(_) => ToStopping
    case Checking =>
      if !step.io.ReadFails? && c.id in s.rows && s.rows[c.id].state in {Running, Stopping} then ToAborted
          else StopReturned
    case _ => StopReturned
  }

  function StopWrite(s: State, step: Step): Option<Write>
    requires StopEnabled(s, step)
  {
    var c := s.stops[step.k];
    match c.pc
    case ToStopping => Decide(s.rows, c.id, Stopping, c.reason, step.now, step.io).write
    case ToAborted => Decide(s.rows, c.id, Aborted, c.reason, step.now, step.io).write
    case _ => None
  }

  /** Stopping a run cancels its stress context and nothing else. */
  function StopRuns(s: State, k: nat): seq<Run>
    requires k < |s.stops| && (s.stops[k].pc.Cutting? ==> s.stops[k].pc.run < |s.runs|)
  {
    var pc := s.stops[k].pc;
    if pc.Cutting? then s.runs[pc.run := s.runs[pc.run].(stressCut := true)] else s.runs
  }

  function StopAfter(s: State, step: Step): State
    requires StopEnabled(s, step)
  {
    var c, write := s.stops[step.k], StopWrite(s, step);
    s.(rows := ApplyWrite(s.rows, c.id, write), writes := Logged(s, c.id, write),
       runs := StopRuns(s, step.k), stops := s.stops[step.k := c.(pc := StopNext(s, step))])
  }

  // ---------------------------------------------------------------- snapshot handler

  predicate HandleEnabled(s: State, step: Step) {
    && step.Handle? && step.h < |s.handlers| && s.handlers[step.h].run < |s.runs|
    && s.handlers[step.h].pc != HandlerDone
    && (s.handlers[step.h].pc == HandlerSignals ==> s.runs[s.handlers[step.h].run].signal == Signalled)
  }

  function HandleNext(s: State, step: Step): HandlerPc
    requires HandleEnabled(s, step)
  {
    var c := s.handlers[step.h];
    match c.pc
    case SavingObservation => if step.io.IoOk? then CheckingLive else HandlerSignals
    case CheckingLive =>
      if StressEnded(s, s.runs[c.run]) then HandlerDone else if !s.setup.hasSafety then HandlerSignals else Judging
    case _ => HandlerDone
  }

  function HandleRuns(s: State, h: nat): seq<Run>
    requires h < |s.handlers| && s.handlers[h].run < |s.runs|
  {
    var c := s.handlers[h];
    var r := s.runs[c.run];
    if c.pc == Judging && IsSlaBreached(c.observation, r.config.policy) then s.runs[c.run := r.(stressCut := true)]
        else s.runs
  }

  function HandleObservations(s: State, step: Step): map<string, seq<Observation>>
    requires HandleEnabled(s, step)
  {
    var c := s.handlers[step.h];
    var id := s.runs[c.run].id;
    if c.pc == SavingObservation && (step.io.IoOk? || step.io == WriteFails(true))
    then s.observations[id := Stored(s, id) + [c.observation]]
    else s.observations
  }

  function HandleAfter(s: State, step: Step): State
    requires HandleEnabled(s, step)
  {
    s.(handlers := s.handlers[step.h := s.handlers[step.h].(pc := HandleNext(s, step))],
       observations := HandleObservations(s, step), runs := HandleRuns(s, step.h))
  }

  // ---------------------------------------------------------------- the step relation

  ghost predicate Enabled(s: State, step: Step) {
    match step
    case Create(id, _) => id !in s.rows
    case BeginStart(_) => true
    case Start(i, _, _, _, _) => i < |s.runs| && s.runs[i].starter != Returned
    case Engine(_, _) => EngineEnabled(s, step)
    case Watch(i, _) => i < |s.runs| && s.runs[i].watcher in {Connecting, WatcherSignals}
                        && (s.runs[i].watcher == WatcherSignals ==> s.runs[i].signal == Signalled)
    case Signal(_, _) => SignalEnabled(s, step)
    case Finish(_, _, _, _, _) => FinishEnabled(s, step)
    case BeginStop(_, _) => true
    case Stop(_, _, _) => StopEnabled(s, step)
    case BeginShutdown => true
    case CollectRuns => s.shutdown
    case CancelRun(i) => i in s.cancelList && i < |s.runs|
    case Snapshot(i, _) => i < |s.runs| && Launched(s.runs[i])
    case Handle(_, _) => HandleEnabled(s, step)
  }

  function After(s: State, step: Step): State
    requires Enabled(s, step)
  {
    match step
    case Create(id, config) => s.(rows := s.rows[id := NewRow(config)], born := s.born[id := NewRow(config)],
        writes := s.writes[id := []])
    case BeginStart(id) => s.(runs := s.runs + [NewRun(id)])
    case Start(_, _, _, _, _) => StartAfter(s, step)
    case Engine(i, result) => s.(runs := s.runs[i := EngineRun(s.runs[i], result)])
    case Watch(i, ok) => s.(runs := s.runs[i := WatchRun(s.runs[i], ok)])
    case Signal(i, reason) => s.(runs := s.runs[i := SignalRun(s.runs[i], reason)])
    case Finish(_, _, _, _, _) => FinishAfter(s, step)
    case BeginStop(id, reason) => s.(stops := s.stops + [StopCall(id, reason, LookingUp)])
    case Stop(_, _, _) => StopAfter(s, step)
    case BeginShutdown => s.(shutdown := true)
    case CollectRuns => s.(cancelList := s.cancelList + (set id | id in s.active :: s.active[id]))
    case CancelRun(i) => s.(runs := s.runs[i := s.runs[i].(stressCut := true)], cancelList := s.cancelList - {i})
    case Snapshot(i, o) => s.(handlers := s.handlers + [HandlerCall(i, o, SavingObservation)])
    case Handle(_, _) => HandleAfter(s, step)
  }

  /** A manager freshly started over an existing table, possibly with orphaned rows. */
  ghost predicate Initial(s: State) {
    && s.active == map[] && !s.shutdown && s.cancelList == {}
    && s.runs == [] && s.stops == [] && s.handlers == []
    && s.born == s.rows && (forall id :: id in s.rows ==> History(s, id) == [])
  }

  ghost predicate Next(s: State, step: Step, s': State) {
    Enabled(s, step) && s' == After(s, step)
  }

  ghost predicate IsExecution(states: seq<State>, steps: seq<Step>) {
    IsTrace(Next, states, steps) && Initial(states[0])
  }

  lemma StepAt(states: seq<State>, steps: seq<Step>, k: nat)
    requires IsExecution(states, steps) && k < |steps|
    ensures Enabled(states[k], steps[k]) && states[k + 1] == After(states[k], steps[k])
  {
    hide Enabled, After, Initial;
    assert Next(states[k], steps[k], states[k + 1]);
  }

  /** No repository call made by a starter, stopper or finisher fails; saving an observation still may. */
  predicate RepositoryHolds(step: Step) {
    match step
    case Start(_, _, _, io, _) => io.IoOk?
    case Finish(_, _, _, io, _) => io.IoOk?
    case Stop(_, io, _) => io.IoOk?
    case _ => true
  }
}
