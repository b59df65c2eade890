/** internal/watcher/watcher.go as a state machine: Start, Stop, context cancellation and poll loops in any
    interleaving.

    A step is one section under `mu`, one channel operation or one query.  Queries, ticks, cancellation of the
    parent context and the consumer are free to happen at any time.  Operations that Go answers with a panic
    (a second close, a send on a closed channel) set `panicked`. */
module WatcherProtocol {
  import opened Executions
  import opened Telemetry

  datatype LoopPc =
    | Unspawned | Selecting | Querying | Sending(snapshot: MetricSnapshot) | BlockedOnSend(snapshot: MetricSnapshot)
    | ClosingOut | Clearing | ClosingDone | Exited

  /** One activeRun and its poll loop; `outcomes`, `received` and `closes` are bookkeeping. */
  datatype Loop = Loop(pc: LoopPc, cancelled: bool, outClosed: bool, doneClosed: bool, buffer: seq<MetricSnapshot>,
                       received: seq<MetricSnapshot>, outcomes: seq<Outcome>, closes: nat)

  datatype Mode = Stopped | Running | Stopping

  datatype StopPc = Locking | Cancelling(run: nat) | AwaitingDone(run: nat) | Returned(saw: Option<nat>)

  datatype Config = Config(bufferSize: nat, failureThreshold: nat, dropOnFull: bool, immediatePoll: bool)

  datatype State = State(config: Config, mode: Mode, currentRun: Option<nat>, failures: nat, loops: seq<Loop>,
                         stops: seq<StopPc>, panicked: bool)

  datatype Case = CtxDone | Tick | Result(outcome: Outcome) | SendOk | Default | Go

  datatype Step =
    | Start
    | BeginStop
    | Stop(k: nat)
    | CancelParent(i: nat)
    | Advance(i: nat, select: Case)
    | Receive(i: nat)

  function NewLoop(): Loop {
    Loop(Unspawned, false, false, false, [], [], [], 0)
  }

  predicate Synthesises(config: Config, failures: nat) {
    config.failureThreshold > 0 && failures >= config.failureThreshold
  }

  // ---------------------------------------------------------------- the poll loop

  predicate AdvanceEnabled(s: State, i: nat, select: Case) {
    && i < |s.loops|
    && var l := s.loops[i];
    match l.pc
    case Selecting => (select == CtxDone && l.cancelled) || select == Tick
    case Querying => select.Result?
    case Sending(_) =>
      || (select == CtxDone && l.cancelled)
      || (select == SendOk && (l.outClosed || |l.buffer| < s.config.bufferSize))
      || (select == Default && !l.cancelled && !l.outClosed && |l.buffer| >= s.config.bufferSize)
    case BlockedOnSend(_) => (select == CtxDone && l.cancelled)
        || (select == SendOk && (l.outClosed || |l.buffer| < s.config.bufferSize))
    case Exited => false
    case _ => select == Go
  }

  function NextPc(s: State, i: nat, select: Case): LoopPc
    requires AdvanceEnabled(s, i, select)
  {
    match s.loops[i].pc
    case Unspawned => if s.config.immediatePoll then Querying else Selecting
    case Selecting => if select == CtxDone then ClosingOut else Querying
    case Querying =>
      if select.outcome.Answered? then Sending(select.outcome.snapshot)
      else if Synthesises(s.config, s.failures + 1) then Sending(SyntheticBreach(select.outcome.now))
      else Selecting
    case Sending(snapshot) => if select == Default && !s.config.dropOnFull then BlockedOnSend(snapshot) else Selecting
    case BlockedOnSend(_) => Selecting
    case ClosingOut => Clearing
    case Clearing => ClosingDone
    case ClosingDone => Exited
  }

  predicate Sends(l: Loop, select: Case) {
    (l.pc.Sending? || l.pc.BlockedOnSend?) && select == SendOk
  }

  function NextLoop(s: State, i: nat, select: Case): Loop
    requires AdvanceEnabled(s, i, select)
  {
    var l := s.loops[i];
    l.(pc := NextPc(s, i, select),
       buffer := if Sends(l, select) then l.buffer + [l.pc.snapshot] else l.buffer,
       outcomes := if l.pc == Querying then l.outcomes + [select.outcome] else l.outcomes,
       outClosed := l.outClosed || l.pc == ClosingOut,
       closes := if l.pc == ClosingOut then l.closes + 1 else l.closes,
       doneClosed := l.doneClosed || l.pc == ClosingDone)
  }

  predicate Panics(l: Loop, select: Case) {
    || (Sends(l, select) && l.outClosed)
    || (l.pc == ClosingOut && l.outClosed)
    || (l.pc == ClosingDone && l.doneClosed)
  }

  function AdvanceAfter(s: State, i: nat, select: Case): State
    requires AdvanceEnabled(s, i, select)
  {
    var l := s.loops[i];
    var clears := l.pc == Clearing && s.currentRun == Some(i);
    s.(loops := s.loops[i := NextLoop(s, i, select)],
       failures := if l.pc == Querying then (if select.outcome.Failed? then s.failures + 1 else 0) else s.failures,
       currentRun := if clears then None else s.currentRun,
       mode := if clears then Stopped else s.mode,
       panicked := s.panicked || Panics(l, select))
  }

  // ---------------------------------------------------------------- Start and Stop

  /** Start under mu: refused while a run is on record. */
  function StartAfter(s: State): State {
    if s.mode != Stopped || s.currentRun.Some? then s
    else s.(currentRun := Some(|s.loops|), mode := Running, failures := 0, loops := s.loops + [NewLoop()])
  }

  predicate StopEnabled(s: State, k: nat) {
    && k < |s.stops|
    && match s.stops[k]
       case Locking => true
       case Cancelling(run) => run < |s.loops|
       case AwaitingDone(run) => run < |s.loops| && s.loops[run].doneClosed
       case Returned(_) => false
  }

  function StopAfter(s: State, k: nat): State
    requires StopEnabled(s, k)
  {
    match s.stops[k]
    case Locking =>
      if s.mode == Stopped || s.currentRun.None? then s.(stops := s.stops[k := Returned(None)])
      else if s.mode == Stopping then s.(stops := s.stops[k := AwaitingDone(s.currentRun.value)])
      else s.(stops := s.stops[k := Cancelling(s.currentRun.value)], mode := Stopping)
    case Cancelling(run) =>
      s.(stops := s.stops[k := AwaitingDone(run)], loops := s.loops[run := s.loops[run].(cancelled := true)])
    case AwaitingDone(run) => s.(stops := s.stops[k := Returned(Some(run))])
  }

  // ---------------------------------------------------------------- the step relation

  predicate Enabled(s: State, step: Step) {
    match step
    case Start => true
    case BeginStop => true
    case Stop(k) => StopEnabled(s, k)
    case CancelParent(i) => i < |s.loops|
    case Advance(i, select) => AdvanceEnabled(s, i, select)
    case Receive(i) => i < |s.loops| && s.loops[i].buffer != []
  }

  function After(s: State, step: Step): State
    requires Enabled(s, step)
  {
    match step
    case Start => StartAfter(s)
    case BeginStop => s.(stops := s.stops + [Locking])
    case Stop(k) => StopAfter(s, k)
    case CancelParent(i) => s.(loops := s.loops[i := s.loops[i].(cancelled := true)])
    case Advance(i, select) => AdvanceAfter(s, i, select)
    case Receive(i) =>
      var l := s.loops[i];
      s.(loops := s.loops[i := l.(buffer := l.buffer[1..], received := l.received + [l.buffer[0]])])
  }

  predicate Initial(s: State) {
    s.mode == Stopped && s.currentRun == None && s.loops == [] && s.stops == [] && !s.panicked
  }

  ghost predicate Next(s: State, step: Step, s': State) {
    Enabled(s, step) && s' == After(s, step)
  }

  ghost predicate IsExecution(states: seq<State>, steps: seq<Step>) {
    IsTrace(Next, states, steps) && Initial(states[0])
  }

  lemma StepAt(states: seq<State>, steps: seq<Step>, k: nat)
    requires IsExecution(states, steps) && k < |steps|
    ensures Enabled(states[k], steps[k]) && states[k + 1] == After(states[k], steps[k])
  {
    hide Enabled, After, Initial;
    assert Next(states[k], steps[k], states[k + 1]);
  }
}
