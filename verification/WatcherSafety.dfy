/** What every interleaving of the watcher keeps, and why a blocked Stop always comes back. */
module WatcherSafety {
  import opened Executions
  import opened Telemetry
  import opened WatcherProtocol

  // ---------------------------------------------------------------- channels and the run on record

  /** The loop has not yet given up its place on record. */
  predicate Live(l: Loop) {
    l.pc != ClosingDone && l.pc != Exited
  }

  /** Channel flags are functions of the loop's position: each channel is closed once, on the way out. */
  predicate ChannelsInStep(l: Loop) {
    && l.outClosed == (l.pc in {Clearing, ClosingDone, Exited})
    && l.closes == (if l.outClosed then 1 else 0)
    && l.doneClosed == (l.pc == Exited)
  }

  ghost predicate OnRecord(s: State) {
    && (s.mode == Stopped <==> s.currentRun.None?)
    && (forall i :: 0 <= i < |s.loops| ==>
      ChannelsInStep(s.loops[i]) && (Live(s.loops[i]) <==> s.currentRun == Some(i)))
    && (s.currentRun.Some? ==> s.currentRun.value < |s.loops|)
    && !s.panicked
  }

  /** Somebody is about to cancel run i. */
  ghost predicate CancelPending(s: State, i: nat) {
    exists k :: 0 <= k < |s.stops| && s.stops[k] == Cancelling(i)
  }

  ghost predicate WillBeCancelled(s: State, i: nat)
    requires i < |s.loops|
  {
    s.loops[i].cancelled || CancelPending(s, i)
  }

  ghost predicate StopInStep(s: State, pc: StopPc) {
    match pc
    case Locking => true
    case Cancelling(run) => run < |s.loops|
    case AwaitingDone(run) => run < |s.loops| && WillBeCancelled(s, run)
    case Returned(saw) => saw.Some? ==> saw.value < |s.loops| && s.loops[saw.value].pc == Exited
  }

  ghost predicate StopsInStep(s: State) {
    && (s.mode == Stopping && s.currentRun.Some? && s.currentRun.value < |s.loops| ==>
      WillBeCancelled(s, s.currentRun.value))
    && forall k :: 0 <= k < |s.stops| ==> StopInStep(s, s.stops[k])
  }

  lemma AdvanceKeepsRecord(s: State, i: nat, select: Case)
    requires AdvanceEnabled(s, i, select) && OnRecord(s)
    ensures OnRecord(AdvanceAfter(s, i, select))
  {
    var l := s.loops[i];
    assert ChannelsInStep(l);
    LoopStep(s, i, select);
    hide NextLoop, ChannelsInStep;
  }

  lemma LoopStep(s: State, i: nat, select: Case)
    requires AdvanceEnabled(s, i, select) && ChannelsInStep(s.loops[i])
    ensures ChannelsInStep(NextLoop(s, i, select)) && !Panics(s.loops[i], select)
    ensures Live(NextLoop(s, i, select)) <==> Live(s.loops[i]) && s.loops[i].pc != Clearing
  {
  }

  lemma RecordKept(s: State, step: Step)
    requires Enabled(s, step) && OnRecord(s)
    ensures OnRecord(After(s, step))
  {
    hide NextLoop;
    match step
    case Start =>
    case Advance(i, select) => AdvanceKeepsRecord(s, i, select);
    case _ =>
  }

  // ---------------------------------------------------------------- stoppers

  predicate LoopLater(l: Loop, l': Loop) {
    (l.cancelled ==> l'.cancelled) && (l.pc == Exited ==> l'.pc == Exited)
  }

  lemma LoopsLater(s: State, step: Step)
    requires Enabled(s, step)
    ensures |s.loops| <= |After(s, step).loops|
    ensures forall i :: 0 <= i < |s.loops| ==> LoopLater(s.loops[i], After(s, step).loops[i])
  {
    hide NextPc, Sends, Panics;
  }

  /** A pending cancel is still pending, or has happened. */
  lemma CancelKept(s: State, step: Step, i: nat)
    requires Enabled(s, step) && i < |s.loops| && WillBeCancelled(s, i)
    ensures i < |After(s, step).loops| && WillBeCancelled(After(s, step), i)
  {
    hide AdvanceAfter, AdvanceEnabled;
    LoopsLater(s, step);
    var s' := After(s, step);
    assert LoopLater(s.loops[i], s'.loops[i]);
    if !s.loops[i].cancelled {
      var k :| 0 <= k < |s.stops| && s.stops[k] == Cancelling(i);
      StopsOf(s, step, k);
      if !(step == Stop(k)) {
        assert s'.stops[k] == Cancelling(i);
      }
    }
  }

  lemma StopsOf(s: State, step: Step, k: nat)
    requires Enabled(s, step) && k < |s.stops|
    ensures |s.stops| <= |After(s, step).stops|
    ensures step != Stop(k) ==> After(s, step).stops[k] == s.stops[k]
  {
    hide AdvanceEnabled, NextLoop;
  }

  lemma StopInStepKept(s: State, step: Step, pc: StopPc)
    requires Enabled(s, step) && StopInStep(s, pc)
    ensures StopInStep(After(s, step), pc)
  {
    hide Enabled, After, WillBeCancelled;
    LoopsLater(s, step);
    match pc
    case AwaitingDone(run) => CancelKept(s, step, run);
    case Returned(saw) =>
      if saw.Some? {
        assert LoopLater(s.loops[saw.value], After(s, step).loops[saw.value]);
      }
    case _ =>
  }

  lemma StopMoves(s: State, k: nat)
    requires StopEnabled(s, k) && OnRecord(s) && StopsInStep(s)
    ensures var s' := StopAfter(s, k);
        StopInStep(s', s'.stops[k])
        && (s'.mode == Stopping && s'.currentRun.Some? ==>
        s'.currentRun.value < |s'.loops| && WillBeCancelled(s', s'.currentRun.value))
  {
    var s' := StopAfter(s, k);
    match s.stops[k]
    case Locking =>
      if s.mode == Running {
        assert s'.stops[k] == Cancelling(s.currentRun.value);
      } else if s.mode == Stopping {
        CancelKept(s, Stop(k), s.currentRun.value);
      }
    case Cancelling(run) =>
      if s.mode == Stopping {
        CancelKept(s, Stop(k), s.currentRun.value);
      }
    case AwaitingDone(run) =>
      assert ChannelsInStep(s.loops[run]);
      if s.mode == Stopping {
        CancelKept(s, Stop(k), s.currentRun.value);
      }
  }

  lemma StopsKept(s: State, step: Step)
    requires Enabled(s, step) && OnRecord(s) && StopsInStep(s)
    ensures StopsInStep(After(s, step))
  {
    hide StopAfter, AdvanceAfter, AdvanceEnabled, StopInStep, WillBeCancelled, OnRecord;
    var s' := After(s, step);
    forall k | 0 <= k < |s'.stops| ensures StopInStep(s', s'.stops[k]) {
      if k < |s.stops| {
        StopsOf(s, step, k);
        if step == Stop(k) {
          StopMoves(s, k);
        } else {
          StopInStepKept(s, step, s.stops[k]);
        }
      } else {
        NewStopFine(s, step, k);
      }
    }
    StoppingRun(s, step);
  }

  lemma NewStopFine(s: State, step: Step, k: nat)
    requires Enabled(s, step) && |s.stops| <= k < |After(s, step).stops|
    ensures StopInStep(After(s, step), After(s, step).stops[k])
  {
    hide AdvanceEnabled, NextLoop;
  }

  lemma StoppingRun(s: State, step: Step)
    requires Enabled(s, step) && OnRecord(s) && StopsInStep(s)
    ensures var s' := After(s, step);
      s'.mode == Stopping && s'.currentRun.Some? && s'.currentRun.value < |s'.loops| ==>
        WillBeCancelled(s', s'.currentRun.value)
  {
    hide NextLoop, AdvanceEnabled, StopInStep, WillBeCancelled, ChannelsInStep, Live;
    if step.Stop? {
      StopMoves(s, step.k);
    } else if s.mode == Stopping {
      CancelKept(s, step, s.currentRun.value);
    }
  }

  // ---------------------------------------------------------------- delivery

  /** a arises from b by leaving elements out. */
  ghost predicate Subsequence<T(!new)>(a: seq<T>, b: seq<T>)
    decreases |b|
  {
    if a == [] then true
    else
      && b != []
      && ((a[|a| - 1] == b[|b| - 1] && Subsequence(a[..|a| - 1], b[..|b| - 1])) || Subsequence(a, b[..|b| - 1]))
  }

  lemma SubsequenceSkip<T(!new)>(a: seq<T>, b: seq<T>, x: T)
    requires Subsequence(a, b)
    ensures Subsequence(a, b + [x])
  {
    assert (b + [x])[..|b|] == b;
  }

  lemma SubsequenceKeep<T(!new)>(a: seq<T>, b: seq<T>, x: T)
    requires Subsequence(a, b)
    ensures Subsequence(a + [x], b + [x])
  {
    assert (b + [x])[..|b|] == b && (a + [x])[..|a|] == a;
  }

  /** The snapshot, if any, that the last query gives rise to. */
  function LastEmission(outcomes: seq<Outcome>, config: Config): seq<MetricSnapshot> {
    if outcomes == [] then []
    else
      match outcomes[|outcomes| - 1]
      case Answered(snapshot) => [snapshot]
      case Failed(now) => if Synthesises(config, TrailingFailures(outcomes)) then [SyntheticBreach(now)] else []
  }

  /** All snapshots a run of queries gives rise to, in order. */
  function Emitted(outcomes: seq<Outcome>, config: Config): seq<MetricSnapshot> {
    if outcomes == [] then [] else Emitted(outcomes[..|outcomes| - 1], config) + LastEmission(outcomes, config)
  }

  /** What went into the channel is an ordered selection of what was polled; the snapshot in hand is not yet in it. */
  ghost predicate Delivers(config: Config, l: Loop) {
    && |l.buffer| <= config.bufferSize
    && if l.pc.Sending? || l.pc.BlockedOnSend? then
         l.outcomes != [] && LastEmission(l.outcomes, config) == [l.pc.snapshot]
         && Subsequence(l.received + l.buffer, Emitted(l.outcomes[..|l.outcomes| - 1], config))
       else Subsequence(l.received + l.buffer, Emitted(l.outcomes, config))
  }

  ghost predicate DeliveryOk(s: State) {
    && (forall i :: 0 <= i < |s.loops| ==> Delivers(s.config, s.loops[i]))
    && (s.currentRun.Some? && s.currentRun.value < |s.loops| ==>
      s.failures == TrailingFailures(s.loops[s.currentRun.value].outcomes))
  }

  lemma QueryDelivers(config: Config, l: Loop, outcome: Outcome, failures: nat, l': Loop)
    requires Delivers(config, l) && l.pc == Querying && failures == TrailingFailures(l.outcomes)
    requires l'.outcomes == l.outcomes + [outcome] && l'.buffer == l.buffer && l'.received == l.received
    requires l'.pc == (match outcome
      case Answered(snapshot) => Sending(snapshot)
      case Failed(now) => if Synthesises(config, failures + 1) then Sending(SyntheticBreach(now)) else Selecting)
    ensures Delivers(config, l')
  {
    assert l'.outcomes[..|l'.outcomes| - 1] == l.outcomes;
    assert Emitted(l.outcomes, config) + [] == Emitted(l.outcomes, config);
  }

  lemma SendDelivers(config: Config, l: Loop, l': Loop)
    requires Delivers(config, l) && (l.pc.Sending? || l.pc.BlockedOnSend?) && |l.buffer| < config.bufferSize
    requires l' == l.(pc := Selecting, buffer := l.buffer + [l.pc.snapshot])
    ensures Delivers(config, l')
  {
    assert l'.received + l'.buffer == (l.received + l.buffer) + [l.pc.snapshot];
    SubsequenceKeep(l.received + l.buffer, Emitted(l.outcomes[..|l.outcomes| - 1], config), l.pc.snapshot);
  }

  lemma DropDelivers(config: Config, l: Loop, l': Loop)
    requires Delivers(config, l) && (l.pc.Sending? || l.pc.BlockedOnSend?)
    requires l' == l.(pc := Selecting)
    ensures Delivers(config, l')
  {
    SubsequenceSkip(l.received + l.buffer, Emitted(l.outcomes[..|l.outcomes| - 1], config), l.pc.snapshot);
  }

  lemma LoopDelivers(s: State, i: nat, select: Case)
    requires AdvanceEnabled(s, i, select) && Delivers(s.config, s.loops[i]) && ChannelsInStep(s.loops[i])
    requires s.loops[i].pc == Querying ==> s.failures == TrailingFailures(s.loops[i].outcomes)
    ensures Delivers(s.config, NextLoop(s, i, select))
  {
    hide Subsequence, Emitted, LastEmission, TrailingFailures;
    var l, l' := s.loops[i], NextLoop(s, i, select);
    if l.pc == Querying {
      QueryDelivers(s.config, l, select.outcome, s.failures, l');
    } else if l.pc.Sending? || l.pc.BlockedOnSend? {
      if select == SendOk {
        SendDelivers(s.config, l, l');
      } else if l'.pc == Selecting {
        DropDelivers(s.config, l, l');
      }
    }
  }

  lemma ReceiveDelivers(config: Config, l: Loop)
    requires Delivers(config, l) && l.buffer != []
    ensures Delivers(config, l.(buffer := l.buffer[1..], received := l.received + [l.buffer[0]]))
  {
    assert (l.received + [l.buffer[0]]) + l.buffer[1..] == l.received + l.buffer;
  }

  lemma DeliveryKept(s: State, step: Step)
    requires Enabled(s, step) && OnRecord(s) && DeliveryOk(s)
    ensures DeliveryOk(After(s, step))
  {
    hide Delivers, TrailingFailures, StopAfter, NextLoop, NextPc, AdvanceEnabled;
    match step
    case Start => NewLoopDelivers(s.config);
    case Advance(i, select) => AdvanceKeepsDelivery(s, i, select);
    case Receive(i) =>
      assert Delivers(s.config, s.loops[i]);
      ReceiveDelivers(s.config, s.loops[i]);
    case Stop(k) => StopKeepsDelivery(s, k);
    case CancelParent(i) =>
      assert Delivers(s.config, s.loops[i]);
      CancelDelivers(s.config, s.loops[i]);
    case BeginStop =>
  }

  lemma CancelDelivers(config: Config, l: Loop)
    requires Delivers(config, l)
    ensures Delivers(config, l.(cancelled := true))
  {
  }

  lemma NewLoopDelivers(config: Config)
    ensures Delivers(config, NewLoop()) && TrailingFailures(NewLoop().outcomes) == 0
  {
  }

  lemma StopKeepsDelivery(s: State, k: nat)
    requires StopEnabled(s, k) && DeliveryOk(s)
    ensures DeliveryOk(StopAfter(s, k))
  {
    hide Delivers, TrailingFailures;
    if s.stops[k].Cancelling? {
      assert Delivers(s.config, s.loops[s.stops[k].run]);
      CancelDelivers(s.config, s.loops[s.stops[k].run]);
    }
  }

  lemma AdvanceKeepsDelivery(s: State, i: nat, select: Case)
    requires AdvanceEnabled(s, i, select) && OnRecord(s) && DeliveryOk(s)
    ensures DeliveryOk(AdvanceAfter(s, i, select))
  {
    hide Delivers, TrailingFailures, Sends, Panics, NextPc;
    var l := s.loops[i];
    assert Delivers(s.config, l) && ChannelsInStep(l) && (Live(l) <==> s.currentRun == Some(i));
    LoopDelivers(s, i, select);
    if l.pc == Querying {
      TrailingAppend(l.outcomes, select.outcome);
    }
  }

  // ---------------------------------------------------------------- the invariant over executions

  ghost predicate Sound(s: State) {
    OnRecord(s) && StopsInStep(s) && DeliveryOk(s)
  }

  lemma SoundKept(s: State, step: Step)
    requires Enabled(s, step) && Sound(s)
    ensures Sound(After(s, step))
  {
    hide Enabled, After, OnRecord, StopsInStep, DeliveryOk;
    RecordKept(s, step);
    StopsKept(s, step);
    DeliveryKept(s, step);
  }

  lemma {:induction false} AlwaysSound(states: seq<State>, steps: seq<Step>, k: nat)
    requires IsExecution(states, steps) && k < |states|
    ensures Sound(states[k])
  {
    hide Sound, Enabled, After;
    if k == 0 {
      InitialSound(states[0]);
    } else {
      AlwaysSound(states, steps, k - 1);
      StepAt(states, steps, k - 1);
      SoundKept(states[k - 1], steps[k - 1]);
    }
  }

  lemma InitialSound(s: State)
    requires Initial(s)
    ensures Sound(s)
  {
  }

  /** In every reachable state: no panic, at most one open output channel, none closed twice, and the watcher counts as
      stopped exactly when no run is on record. */
  lemma ChannelDiscipline(states: seq<State>, steps: seq<Step>, k: nat)
    requires IsExecution(states, steps) && k < |states|
    ensures var s := states[k];
      && !s.panicked && (s.mode == Stopped <==> s.currentRun.None?)
      && (forall i :: 0 <= i < |s.loops| ==>
        s.loops[i].closes <= 1 && (s.loops[i].pc == Exited ==> s.loops[i].closes == 1))
      && (forall i, j :: 0 <= i < |s.loops| && 0 <= j < |s.loops| && !s.loops[i].outClosed && !s.loops[j].outClosed ==>
        i == j)
  {
    hide Enabled, After, StopsInStep, DeliveryOk;
    AlwaysSound(states, steps, k);
    var s := states[k];
    assert forall i :: 0 <= i < |s.loops| ==>
        ChannelsInStep(s.loops[i]) && (Live(s.loops[i]) <==> s.currentRun == Some(i));
  }

  /** A Stop that returned after seeing a run left it closed and off the record. */
  lemma StopMeansStopped(states: seq<State>, steps: seq<Step>, k: nat, c: nat)
    requires IsExecution(states, steps) && k < |states| && c < |states[k].stops|
    requires states[k].stops[c].Returned? && states[k].stops[c].saw.Some?
    ensures var s, run := states[k], states[k].stops[c].saw.value;
      run < |s.loops| && s.loops[run].outClosed && s.loops[run].doneClosed && s.loops[run].pc == Exited
        && s.currentRun != Some(run)
  {
    hide Enabled, After, DeliveryOk;
    AlwaysSound(states, steps, k);
    assert StopInStep(states[k], states[k].stops[c]);
    assert ChannelsInStep(states[k].loops[states[k].stops[c].saw.value]);
  }

  /** What a consumer has received, then what waits in the buffer, is an ordered selection of the snapshots polled. */
  lemma DeliveredInOrder(states: seq<State>, steps: seq<Step>, k: nat, i: nat)
    requires IsExecution(states, steps) && k < |states| && i < |states[k].loops|
    ensures var l := states[k].loops[i];
      Subsequence(l.received + l.buffer, Emitted(l.outcomes, states[k].config))
        && |l.buffer| <= states[k].config.bufferSize
  {
    hide Enabled, After, OnRecord, StopsInStep, Subsequence, Emitted, LastEmission;
    AlwaysSound(states, steps, k);
    var l := states[k].loops[i];
    assert Delivers(states[k].config, l);
    if l.pc.Sending? || l.pc.BlockedOnSend? {
      EmittedSplit(l.outcomes, states[k].config);
      SubsequenceSkip(l.received + l.buffer, Emitted(l.outcomes[..|l.outcomes| - 1], states[k].config), l.pc.snapshot);
    }
  }

  lemma EmittedSplit(outcomes: seq<Outcome>, config: Config)
    requires outcomes != []
    ensures Emitted(outcomes, config) == Emitted(outcomes[..|outcomes| - 1], config) + LastEmission(outcomes, config)
  {
  }

  /** Nothing enters a channel once it is closed. */
  lemma NoSendAfterClose(s: State, step: Step, i: nat)
    requires Enabled(s, step) && Sound(s) && i < |s.loops| && s.loops[i].outClosed
    ensures i < |After(s, step).loops|
    ensures After(s, step).loops[i].outClosed
    ensures After(s, step).loops[i].received + After(s, step).loops[i].buffer == s.loops[i].received + s.loops[i].buffer
  {
    hide StopsInStep, DeliveryOk, NextPc, Panics;
    assert ChannelsInStep(s.loops[i]);
    if step == Receive(i) {
      var l := s.loops[i];
      assert (l.received + [l.buffer[0]]) + l.buffer[1..] == l.received + l.buffer;
    }
  }

  // ---------------------------------------------------------------- a blocked Stop comes back

  function LoopRank(pc: LoopPc): nat {
    match pc
    case Unspawned => 7
    case Querying => 6
    case Sending(_) => 5
    case BlockedOnSend(_) => 5
    case Selecting => 4
    case ClosingOut => 3
    case Clearing => 2
    case ClosingDone => 1
    case Exited => 0
  }

  /** Steps until the done channel of run i is closed, counting the cancel still owed to it. */
  function Distance(l: Loop): nat {
    LoopRank(l.pc) + (if l.cancelled then 0 else 8)
  }

  function Exiting(s: State, i: nat): Case
    requires i < |s.loops|
  {
    match s.loops[i].pc
    case Querying => Result(Failed(0))
    case Selecting => CtxDone
    case Sending(_) => CtxDone
    case BlockedOnSend(_) => CtxDone
    case _ => Go
  }

  /** A cancelled loop can always take a step towards its exit. */
  lemma LoopCanExit(s: State, i: nat)
    requires i < |s.loops| && s.loops[i].cancelled && s.loops[i].pc != Exited
    ensures AdvanceEnabled(s, i, Exiting(s, i))
    ensures var l' := NextLoop(s, i, Exiting(s, i)); l'.cancelled && LoopRank(l'.pc) < LoopRank(s.loops[i].pc)
  {
  }

  /** From any state the protocol can reach, a Stop waiting for a run is at most sixteen steps of that run's loop and of
      the goroutine owing it a cancel away from returning: no interleaving leaves it stuck. */
  lemma {:induction false} StopCanReturn(s: State, c: nat, run: nat) returns (states: seq<State>, steps: seq<Step>)
    requires Sound(s) && c < |s.stops| && s.stops[c] == AwaitingDone(run)
    ensures IsTrace(Next, states, steps) && states[0] == s
    ensures run < |s.loops| && |steps| <= Distance(s.loops[run]) + 1
    ensures c < |states[|steps|].stops| && states[|steps|].stops[c] == Returned(Some(run))
    decreases if run < |s.loops| then Distance(s.loops[run]) else 0
  {
    hide Enabled, After, DeliveryOk;
    assert StopInStep(s, s.stops[c]);
    var l := s.loops[run];
    if l.pc == Exited {
      assert ChannelsInStep(l);
      ReturnStep(s, c, run);
      states, steps := [s, After(s, Stop(c))], [Stop(c)];
    } else {
      var step;
      if l.cancelled {
        step := Advance(run, Exiting(s, run));
        ExitStep(s, c, run);
      } else {
        var k :| 0 <= k < |s.stops| && s.stops[k] == Cancelling(run);
        step := Stop(k);
        CancelStep(s, c, run, k);
      }
      SoundKept(s, step);
      states, steps := StopCanReturn(After(s, step), c, run);
      TracePrefixed(Next, s, step, states, steps);
      states, steps := [s] + states, [step] + steps;
    }
  }

  lemma ReturnStep(s: State, c: nat, run: nat)
    requires c < |s.stops| && s.stops[c] == AwaitingDone(run) && run < |s.loops| && s.loops[run].doneClosed
    ensures Enabled(s, Stop(c)) && After(s, Stop(c)).stops == s.stops[c := Returned(Some(run))]
  {
  }

  lemma ExitStep(s: State, c: nat, run: nat)
    requires c < |s.stops| && s.stops[c] == AwaitingDone(run) && run < |s.loops| && s.loops[run].cancelled
    requires s.loops[run].pc != Exited
    ensures var step := Advance(run, Exiting(s, run));
      && Enabled(s, step) && After(s, step).stops == s.stops
      && |After(s, step).loops| == |s.loops| && Distance(After(s, step).loops[run]) < Distance(s.loops[run])
  {
    hide NextLoop, AdvanceEnabled;
    LoopCanExit(s, run);
  }

  lemma CancelStep(s: State, c: nat, run: nat, k: nat)
    requires c < |s.stops| && s.stops[c] == AwaitingDone(run) && run < |s.loops| && !s.loops[run].cancelled
    requires k < |s.stops| && s.stops[k] == Cancelling(run)
    ensures Enabled(s, Stop(k)) && |After(s, Stop(k)).stops| == |s.stops| && After(s, Stop(k)).stops[c] == s.stops[c]
    ensures |After(s, Stop(k)).loops| == |s.loops| && Distance(After(s, Stop(k)).loops[run]) < Distance(s.loops[run])
  {
  }
}
