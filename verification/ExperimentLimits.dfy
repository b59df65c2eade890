/** Executions that mark the edge of the guarantees, and the guarantees stated up to that edge. */
module ExperimentLimits {
  import opened CapacityModel
  import opened Executions
  import opened Lifecycle
  import opened ExperimentProtocol
  import opened ExperimentFrames
  import opened ExperimentLaunch
  import opened ExperimentProgress
  import opened ExperimentAborts
  import opened ExperimentExecution

  // ---------------------------------------------------------------- one experiment seen from outside

  const ANALYZER: (seq<Observation>, SafetyPolicy) -> CapacityResult := (_, _) => CapacityResult(0, 0, 0, 0, 0)

  const FULL: Setup := Setup(true, true, true, true, true, true, ANALYZER)

  const CONFIG: Config := Config(SafetyPolicy(500.0, 0.05, 0.99), 0)

  /** What the executions below need to know of a state: the row's state, the runs, the token, the stoppers, the
      snapshot handlers, and how many calls of starters, stoppers and finishers have failed on the way. */
  datatype View = View(state: ExperimentState, runs: seq<Run>, active: map<string, nat>, stops: seq<StopPc>,
                       handlers: seq<HandlerCall>, failures: nat)

  function Failures(steps: seq<Step>): nat {
    if steps == [] then 0
    else Failures(steps[..|steps| - 1]) + (if RepositoryHolds(steps[|steps| - 1]) then 0 else 1)
  }

  function StopOf(pc: StopPc): StopCall {
    StopCall("x", "operator", pc)
  }

  ghost predicate Shows(s: State, v: View) {
    && s.setup == FULL && !s.shutdown && s.handlers == v.handlers
    && s.rows.Keys == {"x"} && s.rows["x"].state == v.state && s.rows["x"].config == CONFIG
    && s.runs == v.runs && s.active == v.active
    && |s.stops| == |v.stops| && forall k :: 0 <= k < |s.stops| ==> s.stops[k] == StopOf(v.stops[k])
  }

  /** A state that looks like v; what a step does to the view can be read off it. */
  function Sample(v: View): State {
    State(FULL, map["x" := Row(CONFIG, v.state, "", None, None)], map[], map[], map[], map[], v.active, false, {},
          v.runs, seq(|v.stops|, k requires 0 <= k < |v.stops| => StopOf(v.stops[k])), v.handlers)
  }

  function StateAfter(state: ExperimentState, write: Option<Write>): ExperimentState {
    if write.Some? then write.value.target else state
  }

  function StartView(v: View, i: nat, ok: bool, reason: string): (w: View)
    requires i < |v.runs|
    ensures w.failures == v.failures
  {
    var s, step := Sample(v), Start(i, ok, reason, IoOk, 0);
    View(StateAfter(v.state, StartVerdict(s, step).write), v.runs[i := StartRun(s, step)], StartActive(s, i), v.stops,
         v.handlers, v.failures)
  }

  function FinishView(v: View, i: nat, pick: Pick, io: Io): (w: View)
    requires i < |v.runs|
    ensures w.failures == v.failures + if io.IoOk? then 0 else 1
  {
    var s, step := Sample(v), Finish(i, pick, "", io, 0);
    View(StateAfter(v.state, FinishVerdict(s, step).write), v.runs[i := FinishRun(s, step)], FinishActive(s, i),
      v.stops, v.handlers,
         v.failures + if io.IoOk? then 0 else 1)
  }

  function StopView(v: View, k: nat): (w: View)
    requires k < |v.stops| && v.stops[k] != StopReturned && !v.stops[k].Cutting?
    ensures w.failures == v.failures
  {
    var s, step := Sample(v), Stop(k, IoOk, 0);
    View(StateAfter(v.state, StopWrite(s, step)), v.runs, v.active, v.stops[k := StopNext(s, step)],
         v.handlers, v.failures)
  }

  lemma StartLooksAlike(s: State, v: View, i: nat, ok: bool, reason: string)
    requires Shows(s, v) && i < |v.runs| && v.runs[i].id == "x"
    ensures var step := Start(i, ok, reason, IoOk, 0);
      && StartVerdict(s, step) == StartVerdict(Sample(v), step)
      && StartRun(s, step) == StartRun(Sample(v), step) && StartActive(s, i) == StartActive(Sample(v), i)
  {
  }

  lemma StartShows(s: State, v: View, i: nat, ok: bool, reason: string)
    requires Shows(s, v) && i < |v.runs| && v.runs[i].id == "x" && v.runs[i].starter != Returned
    ensures var step := Start(i, ok, reason, IoOk, 0);
        Enabled(s, step) && Shows(After(s, step), StartView(v, i, ok, reason))
  {
    hide StartRun, StartVerdict, StartActive, Logged, Sample;
    StartLooksAlike(s, v, i, ok, reason);
  }

  lemma FinishVerdictAlike(s: State, v: View, i: nat, pick: Pick, io: Io)
    requires Shows(s, v) && i < |v.runs| && v.runs[i].id == "x"
    ensures FinishVerdict(s, Finish(i, pick, "", io, 0)) == FinishVerdict(Sample(v), Finish(i, pick, "", io, 0))
  {
    hide Decide;
    var pc := v.runs[i].finisher;
    DecidesAlike(s, v, FinishTarget(pc), if pc.Aborting? then pc.reason else "", io);
  }

  lemma FinishLooksAlike(s: State, v: View, i: nat, pick: Pick, io: Io)
    requires Shows(s, v) && i < |v.runs| && v.runs[i].id == "x" && !v.runs[i].finisher.Loading?
    ensures var step := Finish(i, pick, "", io, 0);
      && FinishVerdict(s, step) == FinishVerdict(Sample(v), step)
      && FinishRun(s, step) == FinishRun(Sample(v), step) && FinishActive(s, i) == FinishActive(Sample(v), i)
  {
    hide Stored, FinishVerdict;
    FinishVerdictAlike(s, v, i, pick, io);
  }

  lemma DecidesAlike(s: State, v: View, target: ExperimentState, reason: string, io: Io)
    requires Shows(s, v)
    ensures Decide(s.rows, "x", target, reason, 0, io) == Decide(Sample(v).rows, "x", target, reason, 0, io)
  {
  }

  lemma FinishEnabledAlike(s: State, v: View, i: nat, pick: Pick, io: Io)
    requires Shows(s, v) && i < |v.runs|
    ensures FinishEnabled(s, Finish(i, pick, "", io, 0)) == FinishEnabled(Sample(v), Finish(i, pick, "", io, 0))
  {
  }

  lemma FinishShows(s: State, v: View, i: nat, pick: Pick, io: Io)
    requires Shows(s, v) && i < |v.runs| && v.runs[i].id == "x" && !v.runs[i].finisher.Loading?
    requires FinishEnabled(Sample(v), Finish(i, pick, "", io, 0))
    ensures var step := Finish(i, pick, "", io, 0);
        Enabled(s, step) && Shows(After(s, step), FinishView(v, i, pick, io))
  {
    hide FinishRun, FinishVerdict, FinishActive, Logged, FinishReports, FinishEnabled, Sample;
    FinishLooksAlike(s, v, i, pick, io);
    FinishEnabledAlike(s, v, i, pick, io);
  }

  lemma StopLooksAlike(s: State, v: View, k: nat)
    requires Shows(s, v) && k < |v.stops| && v.stops[k] != StopReturned && !v.stops[k].Cutting?
    ensures var step := Stop(k, IoOk, 0);
      && StopEnabled(s, step) && StopEnabled(Sample(v), step)
      && StopNext(s, step) == StopNext(Sample(v), step) && StopWrite(s, step) == StopWrite(Sample(v), step)
  {
  }

  lemma StopShows(s: State, v: View, k: nat)
    requires Shows(s, v) && k < |v.stops| && v.stops[k] != StopReturned && !v.stops[k].Cutting?
    ensures var step := Stop(k, IoOk, 0); Enabled(s, step) && Shows(After(s, step), StopView(v, k))
  {
    hide Logged, StopNext, StopWrite, Sample;
    StopLooksAlike(s, v, k);
  }

  /** One more step of an execution that permits it. */
  lemma Extend(states: seq<State>, steps: seq<Step>, hazards: set<Hazard>, step: Step)
    returns (states': seq<State>, steps': seq<Step>)
    requires IsExecution(states, steps) && Within(states, steps, hazards)
    requires Enabled(states[|steps|], step) && Permitted(states[|steps|], step, hazards)
    ensures IsExecution(states', steps') && Within(states', steps', hazards)
    ensures states' == states + [After(states[|steps|], step)] && steps' == steps + [step]
    ensures Failures(steps') == Failures(steps) + if RepositoryHolds(step) then 0 else 1
  {
    hide Enabled, After, Initial, Permitted;
    TraceExtended(Next, states, steps, step, After(states[|steps|], step));
    states', steps' := states + [After(states[|steps|], step)], steps + [step];
    assert steps'[..|steps|] == steps;
  }

  /** An execution in which no hazard but these occurs. */
  ghost predicate Admitted(states: seq<State>, steps: seq<Step>, hazards: set<Hazard>) {
    |states| == |steps| + 1 && IsExecution(states, steps) && Within(states, steps, hazards)
  }

  /** Such an execution whose last state looks like v. */
  ghost predicate Reached(states: seq<State>, steps: seq<Step>, hazards: set<Hazard>, v: View) {
    Admitted(states, steps, hazards) && Shows(states[|steps|], v) && Failures(steps) == v.failures
  }

  // ---------------------------------------------------------------- moves of the starters

  function Starting(pc: StarterPc): Run {
    NewRun("x").(config := CONFIG, starter := pc)
  }

  lemma Starts(states0: seq<State>, steps0: seq<Step>, hazards: set<Hazard>, v: View, i: nat, ok: bool, reason: string)
    returns (states: seq<State>, steps: seq<Step>)
    requires Reached(states0, steps0, hazards, v)
    requires i < |v.runs| && v.runs[i].id == "x" && v.runs[i].starter != Returned
    requires v.runs[i].starter.Abandoning? ==> StarterAbort in hazards
    ensures Reached(states, steps, hazards, StartView(v, i, ok, reason))
  {
    hide Enabled, After, StartVerdict, StartView, Within, IsExecution, Sample;
    StartShows(states0[|steps0|], v, i, ok, reason);
    states, steps := Extend(states0, steps0, hazards, Start(i, ok, reason, IoOk, 0));
  }

  // ---------------------------------------------------------------- two starters, one launch

  function Empty(): State {
    State(FULL, map[], map[], map[], map[], map[], map[], false, {}, [], [], [])
  }

  /** One experiment and two calls of StartExperiment for it. */
  lemma TwoCalls(hazards: set<Hazard>) returns (states: seq<State>, steps: seq<Step>)
    ensures Reached(states, steps, hazards, View(Created, [NewRun("x"), NewRun("x")], map[], [], [], 0))
  {
    states, steps := [Empty()], [];
    states, steps := Extend(states, steps, hazards, Create("x", CONFIG));
    states, steps := Extend(states, steps, hazards, BeginStart("x"));
    states, steps := Extend(states, steps, hazards, BeginStart("x"));
  }

  predicate Stands(v: View, i: nat, pc: StarterPc) {
    i < |v.runs| && v.runs[i] == Starting(pc)
  }

  function Stepped(v: View, i: nat, r: Run): View
    requires i < |v.runs|
  {
    v.(runs := v.runs[i := r])
  }

  lemma StartViews(v: View, i: nat, pc: StarterPc)
    requires Stands(v, i, pc)
    ensures pc == Planning && v.state in {Created, Planned} ==>
      StartView(v, i, true, "") == Stepped(v, i, Starting(Graphing)).(state := Planned)
    ensures pc == Graphing ==> StartView(v, i, true, "") == Stepped(v, i, Starting(Claiming))
    ensures pc == Claiming && "x" !in v.active ==>
      StartView(v, i, true, "") == Stepped(v, i, Starting(Entering)).(active := v.active["x" := i])
    ensures pc == Entering && v.state in {Planned, Running} ==>
      StartView(v, i, true, "") == Stepped(v, i, Starting(Launching)).(state := Running)
    ensures pc == Launching ==> StartView(v, i, true, "") == Stepped(v, i, LaunchedRun())
  {
  }

  function LaunchedRun(): Run {
    Starting(Returned).(engine := Generating, watcher := Connecting, finisher := Polling)
  }

  lemma ReadView(v: View, i: nat)
    requires i < |v.runs| && v.runs[i] == NewRun("x") && v.state == Created
    ensures StartView(v, i, true, "") == Stepped(v, i, Starting(Planning))
  {
  }

  /** Both read CREATED, and both pass PLANNED: the second by the equal-state shortcut. */
  lemma BothPlanned(hazards: set<Hazard>) returns (states: seq<State>, steps: seq<Step>)
    ensures Reached(states, steps, hazards, View(Planned, [Starting(Graphing), Starting(Graphing)], map[], [], [], 0))
  {
    hide Reached, StartView;
    states, steps := TwoCalls(hazards);
    var v := View(Created, [NewRun("x"), NewRun("x")], map[], [], [], 0);
    ReadView(v, 0);
    states, steps := Starts(states, steps, hazards, v, 0, true, "");
    v := Stepped(v, 0, Starting(Planning));
    ReadView(v, 1);
    states, steps := Starts(states, steps, hazards, v, 1, true, "");
    v := Stepped(v, 1, Starting(Planning));
    StartViews(v, 0, Planning);
    states, steps := Starts(states, steps, hazards, v, 0, true, "");
    v := Stepped(v, 0, Starting(Graphing)).(state := Planned);
    StartViews(v, 1, Planning);
    states, steps := Starts(states, steps, hazards, v, 1, true, "");
    assert Stepped(v, 1, Starting(Graphing)).runs == [Starting(Graphing), Starting(Graphing)];
  }

  lemma Restepped(v: View, i: nat, a: Run, b: Run)
    requires i < |v.runs|
    ensures Stepped(Stepped(v, i, a), i, b) == Stepped(v, i, b)
  {
  }

  /** A starter past its graph query claims the free token, enters RUNNING and launches. */
  lemma Launches(states0: seq<State>, steps0: seq<Step>, hazards: set<Hazard>, v: View, i: nat)
    returns (states: seq<State>, steps: seq<Step>)
    requires Reached(states0, steps0, hazards, v)
    requires Stands(v, i, Graphing) && "x" !in v.active && v.state in {Planned, Running}
    ensures Reached(states, steps, hazards,
        Stepped(v, i, LaunchedRun()).(state := Running, active := v.active["x" := i]))
  {
    hide Reached, StartView;
    StartViews(v, i, Graphing);
    states, steps := Starts(states0, steps0, hazards, v, i, true, "");
    var w := Stepped(v, i, Starting(Claiming));
    StartViews(w, i, Claiming);
    Restepped(v, i, Starting(Claiming), Starting(Entering));
    states, steps := Starts(states, steps, hazards, w, i, true, "");
    w := Stepped(v, i, Starting(Entering)).(active := v.active["x" := i]);
    StartViews(w, i, Entering);
    Restepped(v, i, Starting(Entering), Starting(Launching));
    states, steps := Starts(states, steps, hazards, w, i, true, "");
    w := Stepped(v, i, Starting(Launching)).(state := Running, active := v.active["x" := i]);
    StartViews(w, i, Launching);
    Restepped(v, i, Starting(Launching), LaunchedRun());
    states, steps := Starts(states, steps, hazards, w, i, true, "");
  }

  /** The first starter has launched; the second still waits for its graph. */
  function OneLaunched(stops: seq<StopPc>): View {
    View(Running, [LaunchedRun(), Starting(Graphing)], map["x" := 0], stops, [], 0)
  }

  lemma FirstLaunches(hazards: set<Hazard>) returns (states: seq<State>, steps: seq<Step>)
    ensures Reached(states, steps, hazards, OneLaunched([]))
  {
    hide Reached;
    states, steps := BothPlanned(hazards);
    var v := View(Planned, [Starting(Graphing), Starting(Graphing)], map[], [], [], 0);
    states, steps := Launches(states, steps, hazards, v, 0);
    assert Stepped(v, 0, LaunchedRun()).(state := Running, active := map["x" := 0]) == OneLaunched([]);
    assert v.active["x" := 0] == map["x" := 0];
  }

  // ---------------------------------------------------------------- ABORTED by a starter, and by a stopper

  const NO_GRAPH: string := "jaeger unreachable"

  lemma AbandonViews(v: View, i: nat)
    ensures Stands(v, i, Graphing) ==> StartView(v, i, false, NO_GRAPH) == Stepped(v, i, Starting(Abandoning(NO_GRAPH)))
    ensures Stands(v, i, Abandoning(NO_GRAPH)) && v.state == Running ==>
      StartView(v, i, true, "") == Stepped(v, i, Starting(Returned)).(state := Aborted)
  {
  }

  /** Every launched run of an experiment whose row is ABORTED is past its traffic, or one cancel away from it. */
  ghost predicate AbortsCease(states: seq<State>) {
    forall k, i :: 0 <= k < |states| && 0 <= i < |states[k].runs| && Launched(states[k].runs[i])
      && states[k].runs[i].id in states[k].rows && states[k].rows[states[k].runs[i].id].state == Aborted
      ==> Ceasing(states[k], states[k].runs[i])
  }

  /** A launched run whose contexts are open, whose engine is at work and whose failure nobody has signalled. */
  lemma LiveUnderAborted(states: seq<State>, steps: seq<Step>, hazards: set<Hazard>, v: View)
    requires Reached(states, steps, hazards, v) && v.state == Aborted && v.runs != [] && v.runs[0] == LaunchedRun()
    ensures !AbortsCease(states)
  {
    hide IsExecution, Within;
    var s := states[|steps|];
    assert s.runs[0] == LaunchedRun() && !Ceasing(s, s.runs[0]);
  }

  /** A second starter's graph query fails while the first one's traffic runs. */
  lemma AbandonedUnderTraffic(hazards: set<Hazard>) returns (states: seq<State>, steps: seq<Step>)
    requires StarterAbort in hazards
    ensures Admitted(states, steps, hazards) && !AbortsCease(states)
  {
    hide StartView, AbortsCease, IsExecution, Within, Shows;
    states, steps := FirstLaunches(hazards);
    var v := OneLaunched([]);
    AbandonViews(v, 1);
    states, steps := Starts(states, steps, hazards, v, 1, false, NO_GRAPH);
    v := Stepped(v, 1, Starting(Abandoning(NO_GRAPH)));
    AbandonViews(v, 1);
    states, steps := Starts(states, steps, hazards, v, 1, true, "");
    LiveUnderAborted(states, steps, hazards, Stepped(v, 1, Starting(Returned)).(state := Aborted));
  }

  lemma StopViews(v: View)
    requires v.stops != []
    ensures v.stops[0] == LookingUp && "x" !in v.active ==> StopView(v, 0) == v.(stops := v.stops[0 := Checking])
    ensures v.stops[0] == Checking && v.state == Running ==> StopView(v, 0) == v.(stops := v.stops[0 := ToAborted])
    ensures v.stops[0] == ToAborted && v.state == Running ==>
      StopView(v, 0) == v.(state := Aborted, stops := v.stops[0 := StopReturned])
  {
  }

  lemma Stops(states0: seq<State>, steps0: seq<Step>, hazards: set<Hazard>, v: View)
    returns (states: seq<State>, steps: seq<Step>)
    requires Reached(states0, steps0, hazards, v) && v.stops != [] && v.stops[0] in {LookingUp, Checking, ToAborted}
    requires v.stops[0] == ToAborted ==> OrphanAbort in hazards
    ensures Reached(states, steps, hazards, StopView(v, 0))
  {
    hide Enabled, After, StopView, StopWrite, Within, IsExecution, Sample;
    StopShows(states0[|steps0|], v, 0);
    states, steps := Extend(states0, steps0, hazards, Stop(0, IoOk, 0));
  }

  lemma StopBegins(states0: seq<State>, steps0: seq<Step>, hazards: set<Hazard>, v: View)
    returns (states: seq<State>, steps: seq<Step>)
    requires Reached(states0, steps0, hazards, v) && v.stops == []
    ensures Reached(states, steps, hazards, v.(stops := [LookingUp]))
  {
    hide Within, IsExecution;
    states, steps := Extend(states0, steps0, hazards, BeginStop("x", "operator"));
  }

  /** A StopExperiment looks the token up before the starter claims it, and reads the row after traffic was launched. */
  lemma StoppedUnderTraffic(hazards: set<Hazard>) returns (states: seq<State>, steps: seq<Step>)
    requires OrphanAbort in hazards
    ensures Admitted(states, steps, hazards) && !AbortsCease(states)
  {
    hide StopView, AbortsCease, IsExecution, Within, Shows;
    states, steps := BothPlanned(hazards);
    var v := View(Planned, [Starting(Graphing), Starting(Graphing)], map[], [], [], 0);
    states, steps := StopBegins(states, steps, hazards, v);
    v := v.(stops := [LookingUp]);
    StopViews(v);
    states, steps := Stops(states, steps, hazards, v);
    v := v.(stops := v.stops[0 := Checking]);
    states, steps := Launches(states, steps, hazards, v, 0);
    v := Stepped(v, 0, LaunchedRun()).(state := Running, active := v.active["x" := 0]);
    StopViews(v);
    states, steps := Stops(states, steps, hazards, v);
    v := v.(stops := v.stops[0 := ToAborted]);
    StopViews(v);
    states, steps := Stops(states, steps, hazards, v);
    LiveUnderAborted(states, steps, hazards, v.(state := Aborted, stops := v.stops[0 := StopReturned]));
  }

  /** ABORTED means past its traffic in every execution, however the repository fails, exactly when neither a starter
      that gives up nor a StopExperiment that found no active run may write it under a run that holds the entry over a
      row come to RUNNING. */
  lemma AbortedCeasesExactlyWhen(hazards: set<Hazard>)
    ensures (forall states, steps :: Admitted(states, steps, hazards) ==> AbortsCease(states))
       <==> StarterAbort !in hazards && OrphanAbort !in hazards
  {
    hide AbortsCease, Admitted;
    if StarterAbort in hazards {
      var states, steps := AbandonedUnderTraffic(hazards);
    } else if OrphanAbort in hazards {
      var states, steps := StoppedUnderTraffic(hazards);
    } else {
      forall states, steps | Admitted(states, steps, hazards) ensures AbortsCease(states) {
        AllCease(states, steps, hazards);
      }
    }
  }

  lemma AllCease(states: seq<State>, steps: seq<Step>, hazards: set<Hazard>)
    requires Admitted(states, steps, hazards)
    requires StarterAbort !in hazards && OrphanAbort !in hazards
    ensures AbortsCease(states)
  {
    hide Initial, Enabled, After, AbandonAborts, OrphanStopAborts, LosesAbort, StepId, Launched;
    forall n, id | 0 <= n < |steps| ensures !ForeignAbort(states[n], steps[n], id) {
      assert Permitted(states[n], steps[n], hazards);
    }
    forall k, i | 0 <= k < |states| && 0 <= i < |states[k].runs| && Launched(states[k].runs[i])
      && states[k].runs[i].id in states[k].rows && states[k].rows[states[k].runs[i].id].state == Aborted
      ensures Ceasing(states[k], states[k].runs[i])
    {
      AbortedMeansCeasing(states, steps, k, i);
    }
  }

  // ---------------------------------------------------------------- a failure is signalled

  const FAILURE: string := "failed"

  const READING: Observation := Observation(1, 1.0, 1.0, 0.0, 1.0, 0.0, 0.0)

  /** The error is sent and the stress context not yet cancelled: by an engine whose Start failed, being busy with
      another plan or refusing the rate, or by a handler whose save failed while the engine is at work. */
  function FailingRun(engine: EnginePc, pc: FinisherPc): Run {
    LaunchedRun().(engine := engine, signal := ErrorSent, finisher := pc)
  }

  function FailingView(engine: EnginePc, r: Run): View {
    Stepped(OneLaunched([]), 0, r).(
      handlers := if engine == Generating then [HandlerCall(0, READING, HandlerSignals)] else [])
  }

  predicate MayFail(engine: EnginePc) {
    engine == EngineSignals || engine == Generating
  }

  lemma EngineFails(states0: seq<State>, steps0: seq<Step>, hazards: set<Hazard>)
    returns (states: seq<State>, steps: seq<Step>)
    requires Reached(states0, steps0, hazards, OneLaunched([]))
    ensures Reached(states, steps, hazards,
        FailingView(EngineSignals, FailingRun(EngineSignals, Polling).(startErr := Some(FAILURE))))
  {
    hide Within, IsExecution;
    states, steps := Extend(states0, steps0, hazards, Engine(0, FailedResult));
    states, steps := Extend(states, steps, hazards, Signal(0, FAILURE));
  }

  lemma SaveFails(states0: seq<State>, steps0: seq<Step>, hazards: set<Hazard>)
    returns (states: seq<State>, steps: seq<Step>)
    requires Reached(states0, steps0, hazards, OneLaunched([]))
    ensures Reached(states, steps, hazards,
        FailingView(Generating, FailingRun(Generating, Polling).(startErr := Some(FAILURE))))
  {
    hide Within, IsExecution;
    states, steps := Extend(states0, steps0, hazards, Snapshot(0, READING));
    states, steps := Extend(states, steps, hazards, Handle(0, WriteFails(false)));
    assert states[|steps|].handlers[0] == HandlerCall(0, READING, HandlerSignals);
    assert HandlerWaits(states[|steps|], 0);
    states, steps := Extend(states, steps, hazards, Signal(0, FAILURE));
  }

  lemma Finishes(states0: seq<State>, steps0: seq<Step>, hazards: set<Hazard>, v: View, pick: Pick, io: Io)
    returns (states: seq<State>, steps: seq<Step>)
    requires Reached(states0, steps0, hazards, v)
    requires v.runs != [] && v.runs[0].id == "x" && !v.runs[0].finisher.Loading?
    requires FinishEnabled(Sample(v), Finish(0, pick, "", io, 0))
    requires v.runs[0].finisher.Aborting? && !io.IoOk? ==> LostAbort in hazards
    ensures Reached(states, steps, hazards, FinishView(v, 0, pick, io))
  {
    hide Enabled, After, FinishView, FinishEnabled, FinishVerdict, Within, IsExecution, Sample;
    FinishShows(states0[|steps0|], v, 0, pick, io);
    states, steps := Extend(states0, steps0, hazards, Finish(0, pick, "", io, 0));
  }

  predicate Fails(v: View, engine: EnginePc, pc: FinisherPc) {
    v.runs != [] && v.runs[0] == FailingRun(engine, pc)
  }

  lemma FailingViews(v: View, engine: EnginePc)
    requires v.runs != []
    ensures v.runs[0] == FailingRun(engine, Polling).(startErr := Some(FAILURE)) ==>
      && FinishEnabled(Sample(v), Finish(0, PickError, "", IoOk, 0))
      && FinishView(v, 0, PickError, IoOk) == Stepped(v, 0, FailingRun(engine, Halting(FAILURE)))
    ensures Fails(v, engine, Halting(FAILURE)) ==>
      && FinishEnabled(Sample(v), Finish(0, Proceed(true), "", IoOk, 0))
      && FinishView(v, 0, Proceed(true), IoOk) == Stepped(v, 0, FailingRun(engine, Aborting(FAILURE)))
    ensures Fails(v, engine, Releasing) ==>
      && FinishEnabled(Sample(v), Finish(0, Proceed(true), "", IoOk, 0))
      && FinishView(v, 0, Proceed(true), IoOk)
        == Stepped(v, 0, FailingRun(engine, CancellingContext)).(active := Without(v.active, "x"))
  {
    hide FinishTarget;
  }

  lemma AbortingViews(v: View, engine: EnginePc, io: Io)
    requires Fails(v, engine, Aborting(FAILURE)) && v.state == Running
    ensures FinishEnabled(Sample(v), Finish(0, Proceed(true), "", io, 0))
    ensures FinishView(v, 0, Proceed(true), io) == Stepped(v, 0, FailingRun(engine, Releasing)).(
      state := if io.IoOk? || io == WriteFails(true) then Aborted else Running,
      failures := v.failures + if io.IoOk? then 0 else 1)
  {
  }

  /** The finisher takes the error and comes to its abort. */
  lemma ComesToAbort(hazards: set<Hazard>, engine: EnginePc) returns (states: seq<State>, steps: seq<Step>)
    requires MayFail(engine)
    ensures Reached(states, steps, hazards, FailingView(engine, FailingRun(engine, Aborting(FAILURE))))
  {
    hide Reached, FinishView, FinishEnabled, Sample;
    states, steps := FirstLaunches(hazards);
    if engine == Generating {
      states, steps := SaveFails(states, steps, hazards);
    } else {
      states, steps := EngineFails(states, steps, hazards);
    }
    var r := FailingRun(engine, Polling).(startErr := Some(FAILURE));
    FailingViews(FailingView(engine, r), engine);
    Restepped(OneLaunched([]), 0, r, FailingRun(engine, Halting(FAILURE)));
    states, steps := Finishes(states, steps, hazards, FailingView(engine, r), PickError, IoOk);
    r := FailingRun(engine, Halting(FAILURE));
    FailingViews(FailingView(engine, r), engine);
    Restepped(OneLaunched([]), 0, r, FailingRun(engine, Aborting(FAILURE)));
    states, steps := Finishes(states, steps, hazards, FailingView(engine, r), Proceed(true), IoOk);
  }

  /** AbortedMeansCeasing cannot promise more: a handler's save fails, and the abort comes between the two statements of
      signalFailure, with the row ABORTED, every context open and the engine at work.  The Stop the finisher sent the
      engine before its abort cancels nothing when it comes before the engine has stored its cancel function. */
  lemma AbortedBeforeCancel() returns (states: seq<State>, steps: seq<Step>)
    ensures Admitted(states, steps, {})
    ensures var s := states[|steps|];
      && "x" in s.rows && s.rows["x"].state == Aborted && s.runs != [] && s.runs[0].id == "x" && Launched(s.runs[0])
      && s.runs[0].signal == ErrorSent && s.runs[0].engine == Generating && !Quiet(s, s.runs[0])
  {
    hide FinishView, FinishEnabled, Sample, IsExecution, Within;
    states, steps := ComesToAbort({}, Generating);
    var v := FailingView(Generating, FailingRun(Generating, Aborting(FAILURE)));
    AbortingViews(v, Generating, IoOk);
    states, steps := Finishes(states, steps, {}, v, Proceed(true), IoOk);
  }

  // ---------------------------------------------------------------- one lost abort, two launches

  ghost predicate LaunchesOnce(states: seq<State>) {
    forall k, i, m, j :: 0 <= k <= m < |states| && 0 <= i < |states[k].runs| && 0 <= j < |states[m].runs|
      && Launched(states[k].runs[i]) && Launched(states[m].runs[j]) && states[k].runs[i].id == states[m].runs[j].id
      ==> i == j
  }

  lemma TwoLaunched(states: seq<State>, steps: seq<Step>, hazards: set<Hazard>, v: View)
    requires Reached(states, steps, hazards, v) && |v.runs| == 2 && v.runs[0].id == v.runs[1].id
    requires Launched(v.runs[0]) && Launched(v.runs[1])
    ensures !LaunchesOnce(states)
  {
    hide IsExecution, Within, Launched;
    var s := states[|steps|];
    assert Launched(s.runs[0]) && Launched(s.runs[1]);
  }

  /** One failed call is enough: the engine refuses to start, the abort's read fails, the token is released under a row
      in RUNNING, and the waiting starter launches a second time. */
  lemma RelaunchAfterLostAbort(hazards: set<Hazard>) returns (states: seq<State>, steps: seq<Step>)
    requires LostAbort in hazards
    ensures Admitted(states, steps, hazards) && !LaunchesOnce(states) && Failures(steps) == 1
  {
    hide FinishView, FinishEnabled, Sample, IsExecution, Within, Shows, LaunchesOnce;
    var engine, u := EngineSignals, OneLaunched([]);
    states, steps := ComesToAbort(hazards, engine);
    var v := FailingView(engine, FailingRun(engine, Aborting(FAILURE)));
    AbortingViews(v, engine, ReadFails);
    Restepped(u, 0, FailingRun(engine, Aborting(FAILURE)), FailingRun(engine, Releasing));
    states, steps := Finishes(states, steps, hazards, v, Proceed(true), ReadFails);
    v := Stepped(u, 0, FailingRun(engine, Releasing)).(failures := 1);
    FailingViews(v, engine);
    Restepped(u, 0, FailingRun(engine, Releasing), FailingRun(engine, CancellingContext));
    states, steps := Finishes(states, steps, hazards, v, Proceed(true), IoOk);
    v := Stepped(u, 0, FailingRun(engine, CancellingContext)).(active := Without(u.active, "x"), failures := 1);
    states, steps := Launches(states, steps, hazards, v, 1);
    TwoLaunched(states, steps, hazards, Stepped(v, 1, LaunchedRun()).(state := Running, active := v.active["x" := 1]));
  }

  lemma AllLaunchOnce(states: seq<State>, steps: seq<Step>, hazards: set<Hazard>)
    requires Admitted(states, steps, hazards) && LostAbort !in hazards
    ensures LaunchesOnce(states)
  {
    hide IsExecution, Within, Launched;
    forall k, i, m, j | 0 <= k <= m < |states| && 0 <= i < |states[k].runs| && 0 <= j < |states[m].runs|
      && Launched(states[k].runs[i]) && Launched(states[m].runs[j]) && states[k].runs[i].id == states[m].runs[j].id
      ensures i == j
    {
      TrafficLaunchedOnce(states, steps, hazards, k, i, m, j);
    }
  }

  /** Traffic is launched at most once per experiment in every execution exactly when the finishers' aborts of rows in
      RUNNING reach the table; no other call matters. */
  lemma LaunchedOnceExactlyWhen(hazards: set<Hazard>)
    ensures (forall states, steps :: Admitted(states, steps, hazards) ==> LaunchesOnce(states))
       <==> LostAbort !in hazards
  {
    hide Admitted, LaunchesOnce;
    if LostAbort in hazards {
      var states, steps := RelaunchAfterLostAbort(hazards);
    } else {
      forall states, steps | Admitted(states, steps, hazards) ensures LaunchesOnce(states) {
        AllLaunchOnce(states, steps, hazards);
      }
    }
  }
}
