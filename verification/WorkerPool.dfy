/** internal/stress/worker.go as a state machine: the rate-limited pool under any interleaving of submits, starts,
    stops, ticks and workers.

    The i-th call of Submit offers task number i.  Each successful Start opens a generation: a context, a ticker with
    a one-tick buffer, and maxConcurrency workers.  The task channel outlives generations. */
module WorkerPool {
  import opened Executions

  datatype WorkerPc = Idle | Holding(task: nat) | Executing(task: nat) | Gone

  datatype Worker = Worker(generation: nat, pc: WorkerPc)

  /** `fired` counts ticks of the ticker, `spent` those that released a task; a tick waits in the buffer when pending.
      */
  datatype Generation = Generation(cancelled: bool, ticking: bool, fired: nat, spent: nat, pending: bool)

  datatype SubmitPc = ReadingContext | Selecting(generation: nat) | Accepted | Rejected

  datatype StopPc = Locking | Cancelling(generation: nat) | Waiting | Returned

  datatype State = State(maxConcurrency: nat, targetRate: int, current: Option<nat>, generations: seq<Generation>,
                         queue: seq<nat>, workers: seq<Worker>, submits: seq<SubmitPc>, stops: seq<StopPc>,
                         executed: seq<nat>, discarded: seq<nat>)

  datatype Case = ContextDone | Proceed | Default

  datatype Step =
    | Start
    | BeginSubmit
    | Submit(k: nat, select: Case)
    | CancelParent(g: nat)
    | Tick(g: nat)
    | Work(w: nat, select: Case)
    | BeginStop
    | Stop(k: nat)

  const NANOS_PER_SECOND: int := 1000000000

  /** The arguments Start accepts: a rate above one per nanosecond leaves no positive tick interval. */
  predicate StartAccepts(s: State) {
    s.maxConcurrency > 0 && s.targetRate > 0 && s.current.None? && NANOS_PER_SECOND / s.targetRate > 0
  }

  function StartAfter(s: State): State {
    if !StartAccepts(s) then s
    else
      var g := |s.generations|;
      s.(current := Some(g), generations := s.generations + [Generation(false, true, 0, 0, false)],
         workers := s.workers + seq(s.maxConcurrency, _ => Worker(g, Idle)))
  }

  predicate SubmitEnabled(s: State, k: nat, select: Case) {
    && k < |s.submits|
    && match s.submits[k]
       case ReadingContext => true
       case Selecting(g) =>
         && g < |s.generations|
         && (match select
             case ContextDone => s.generations[g].cancelled
             case Proceed => |s.queue| < s.maxConcurrency
             case Default => !s.generations[g].cancelled && |s.queue| >= s.maxConcurrency)
       case _ => false
  }

  function SubmitAfter(s: State, k: nat, select: Case): State
    requires SubmitEnabled(s, k, select)
  {
    match s.submits[k]
    case ReadingContext => s.(submits := s.submits[k := if s.current.Some? then Selecting(s.current.value)
        else Rejected])
    case Selecting(_) =>
      if select == Proceed then s.(submits := s.submits[k := Accepted], queue := s.queue + [k])
      else s.(submits := s.submits[k := Rejected])
  }

  predicate WorkEnabled(s: State, w: nat, select: Case) {
    && w < |s.workers| && s.workers[w].generation < |s.generations|
    && var g := s.generations[s.workers[w].generation];
    match s.workers[w].pc
    case Idle => (select == ContextDone && g.cancelled) || (select == Proceed && s.queue != [])
    case Holding(_) => (select == ContextDone && g.cancelled) || (select == Proceed && g.pending)
    case Executing(_) => select == Proceed
    case Gone => false
  }

  function WorkAfter(s: State, w: nat, select: Case): State
    requires WorkEnabled(s, w, select)
  {
    var worker := s.workers[w];
    var g := s.generations[worker.generation];
    match worker.pc
    case Idle =>
      if select == ContextDone then s.(workers := s.workers[w := worker.(pc := Gone)])
      else s.(workers := s.workers[w := worker.(pc := Holding(s.queue[0]))], queue := s.queue[1..])
    case Holding(task) =>
      if select == ContextDone
          then s.(workers := s.workers[w := worker.(pc := Gone)], discarded := s.discarded + [task])
      else s.(workers := s.workers[w := worker.(pc := Executing(task))], executed := s.executed + [task],
              generations := s.generations[worker.generation := g.(pending := false, spent := g.spent + 1)])
    case Executing(_) => s.(workers := s.workers[w := worker.(pc := Idle)])
  }

  /** A tick that finds the buffer full is dropped. */
  function TickOf(g: Generation): Generation {
    g.(fired := g.fired + 1, pending := true)
  }

  predicate AllGone(s: State) {
    forall w :: 0 <= w < |s.workers| ==> s.workers[w].pc == Gone
  }

  predicate StopEnabled(s: State, k: nat) {
    && k < |s.stops|
    && match s.stops[k]
       case Locking => true
       case Cancelling(g) => g < |s.generations|
       case Waiting => AllGone(s)
       case Returned => false
  }

  function StopAfter(s: State, k: nat): State
    requires StopEnabled(s, k)
  {
    match s.stops[k]
    case Locking => s.(stops := s.stops[k := if s.current.Some? then Cancelling(s.current.value) else Waiting],
        current := None)
    case Cancelling(g) =>
      s.(stops := s.stops[k := Waiting],
        generations := s.generations[g := s.generations[g].(cancelled := true, ticking := false)])
    case Waiting => s.(stops := s.stops[k := Returned])
  }

  predicate Enabled(s: State, step: Step) {
    match step
    case Start => true
    case BeginSubmit => true
    case Submit(k, select) => SubmitEnabled(s, k, select)
    case CancelParent(g) => g < |s.generations|
    case Tick(g) => g < |s.generations| && s.generations[g].ticking
    case Work(w, select) => WorkEnabled(s, w, select)
    case BeginStop => true
    case Stop(k) => StopEnabled(s, k)
  }

  function After(s: State, step: Step): State
    requires Enabled(s, step)
  {
    match step
    case Start => StartAfter(s)
    case BeginSubmit => s.(submits := s.submits + [ReadingContext])
    case Submit(k, select) => SubmitAfter(s, k, select)
    case CancelParent(g) => s.(generations := s.generations[g := s.generations[g].(cancelled := true)])
    case Tick(g) => s.(generations := s.generations[g := TickOf(s.generations[g])])
    case Work(w, select) => WorkAfter(s, w, select)
    case BeginStop => s.(stops := s.stops + [Locking])
    case Stop(k) => StopAfter(s, k)
  }

  predicate Initial(s: State) {
    && s.current == None && s.generations == [] && s.queue == [] && s.workers == [] && s.submits == [] && s.stops == []
    && s.executed == [] && s.discarded == []
  }

  ghost predicate Next(s: State, step: Step, s': State) {
    Enabled(s, step) && s' == After(s, step)
  }

  ghost predicate IsExecution(states: seq<State>, steps: seq<Step>) {
    IsTrace(Next, states, steps) && Initial(states[0])
  }

  lemma StepAt(states: seq<State>, steps: seq<Step>, k: nat)
    requires IsExecution(states, steps) && k < |steps|
    ensures Enabled(states[k], steps[k]) && states[k + 1] == After(states[k], steps[k])
  {
    hide Enabled, After, Initial;
    assert Next(states[k], steps[k], states[k + 1]);
  }

  // ---------------------------------------------------------------- where accepted tasks are

  ghost function AcceptedSet(submits: seq<SubmitPc>): set<nat> {
    set k: nat | k < |submits| && submits[k] == Accepted
  }

  ghost function TaskOf(w: Worker): multiset<nat> {
    if w.pc.Holding? then multiset{w.pc.task} else multiset{}
  }

  /** Tasks taken off the queue and not yet released by a tick. */
  ghost function Held(workers: seq<Worker>): multiset<nat> {
    if workers == [] then multiset{} else Held(workers[..|workers| - 1]) + TaskOf(workers[|workers| - 1])
  }

  ghost function Places(s: State): multiset<nat> {
    multiset(s.queue) + Held(s.workers) + multiset(s.executed) + multiset(s.discarded)
  }

  /** Every accepted task is in exactly one place, exactly once. */
  ghost predicate Conserved(s: State) {
    Places(s) == multiset(AcceptedSet(s.submits))
  }

  lemma Exchange(a: multiset<nat>, b: multiset<nat>, c: multiset<nat>, d: multiset<nat>, e: multiset<nat>)
    requires a + b == c + d
    ensures (a + e) + b == (c + e) + d
  {
    assert (a + e) + b == (a + b) + e && (c + e) + d == (c + d) + e;
  }

  lemma {:induction false} HeldUpdate(workers: seq<Worker>, w: nat, to: Worker)
    requires w < |workers|
    ensures Held(workers[w := to]) + TaskOf(workers[w]) == Held(workers) + TaskOf(to)
  {
    hide TaskOf;
    var n := |workers| - 1;
    assert Held(workers) == Held(workers[..n]) + TaskOf(workers[n]);
    if w == n {
      assert workers[w := to][..n] == workers[..n];
    } else {
      HeldUpdate(workers[..n], w, to);
      assert workers[w := to][..n] == workers[..n][w := to];
      Exchange(Held(workers[..n][w := to]), TaskOf(workers[w]), Held(workers[..n]), TaskOf(to), TaskOf(workers[n]));
    }
  }

  lemma {:induction false} HeldIdle(workers: seq<Worker>, n: nat, g: nat)
    ensures Held(workers + seq(n, _ => Worker(g, Idle))) == Held(workers)
  {
    var idle := seq(n, _ => Worker(g, Idle));
    if n == 0 {
      assert workers + idle == workers;
    } else {
      HeldIdle(workers, n - 1, g);
      var shorter := seq(n - 1, _ => Worker(g, Idle));
      assert idle[..n - 1] == shorter;
      assert (workers + idle)[..|workers + idle| - 1] == workers + shorter;
    }
  }

  lemma AcceptedGrows(submits: seq<SubmitPc>, k: nat)
    requires k < |submits| && submits[k] != Accepted
    ensures AcceptedSet(submits[k := Accepted]) == AcceptedSet(submits) + {k} && k !in AcceptedSet(submits)
  {
  }

  /** Taking a task off the queue moves it into a worker's hands. */
  lemma TakeConserves(queue: seq<nat>, before: multiset<nat>, after: multiset<nat>, rest: multiset<nat>)
    requires queue != [] && after == before + multiset{queue[0]}
    ensures multiset(queue[1..]) + after + rest == multiset(queue) + before + rest
  {
    assert queue == [queue[0]] + queue[1..];
    assert multiset(queue) == multiset{queue[0]} + multiset(queue[1..]);
  }

  /** A held task that leaves its worker's hands arrives in the list it is appended to. */
  lemma GiveConserves(rest: multiset<nat>, before: multiset<nat>, after: multiset<nat>, list: seq<nat>, task: nat)
    requires after + multiset{task} == before
    ensures rest + after + multiset(list + [task]) == rest + before + multiset(list)
  {
    assert multiset(list + [task]) == multiset(list) + multiset{task};
  }

  lemma WorkConserves(s: State, w: nat, select: Case)
    requires WorkEnabled(s, w, select)
    ensures Places(WorkAfter(s, w, select)) == Places(s)
  {
    hide Held;
    var s' := WorkAfter(s, w, select);
    var before, after := Held(s.workers), Held(s'.workers);
    HeldUpdate(s.workers, w, s'.workers[w]);
    assert s'.workers == s.workers[w := s'.workers[w]];
    match s.workers[w].pc
    case Idle =>
      if select == Proceed {
        assert after == before + multiset{s.queue[0]};
        TakeConserves(s.queue, before, after, multiset(s.executed));
      } else {
        SameBag(before, after);
      }
    case Holding(task) =>
      if select == ContextDone {
        GiveConserves(multiset(s.queue), before, after, s.discarded, task);
        Swap(multiset(s.queue), before, multiset(s.executed), multiset(s.discarded));
        Swap(multiset(s.queue), after, multiset(s.executed), multiset(s'.discarded));
      } else {
        GiveConserves(multiset(s.queue), before, after, s.executed, task);
      }
    case Executing(_) => SameBag(before, after);
  }

  lemma Swap(a: multiset<nat>, b: multiset<nat>, c: multiset<nat>, d: multiset<nat>)
    ensures a + b + c + d == (a + b + d) + c
  {
  }

  lemma SameBag(a: multiset<nat>, b: multiset<nat>)
    requires b + multiset{} == a + multiset{}
    ensures a == b
  {
    assert a + multiset{} == a && b + multiset{} == b;
  }

  lemma SubmitConserves(s: State, k: nat, select: Case)
    requires SubmitEnabled(s, k, select) && Conserved(s)
    ensures Conserved(SubmitAfter(s, k, select))
  {
    hide Held;
    var s' := SubmitAfter(s, k, select);
    if s.submits[k].Selecting? && select == Proceed {
      AcceptedGrows(s.submits, k);
      AddToBag(AcceptedSet(s.submits), k);
      assert multiset(s'.queue) == multiset(s.queue) + multiset{k};
      assert Places(s') == Places(s) + multiset{k};
    } else {
      assert AcceptedSet(s'.submits) == AcceptedSet(s.submits);
    }
  }

  lemma AddToBag(a: set<nat>, x: nat)
    requires x !in a
    ensures multiset(a + {x}) == multiset(a) + multiset{x}
  {
  }

  lemma ConservedKept(s: State, step: Step)
    requires Enabled(s, step) && Conserved(s)
    ensures Conserved(After(s, step))
  {
    hide WorkAfter, SubmitAfter, Held;
    match step
    case Start => HeldIdle(s.workers, s.maxConcurrency, |s.generations|);
    case Submit(k, select) => SubmitConserves(s, k, select);
    case Work(w, select) =>
      WorkConserves(s, w, select);
      WorkKeepsSubmits(s, w, select);
    case BeginSubmit => assert AcceptedSet(After(s, step).submits) == AcceptedSet(s.submits);
    case _ =>
  }

  lemma WorkKeepsSubmits(s: State, w: nat, select: Case)
    requires WorkEnabled(s, w, select)
    ensures WorkAfter(s, w, select).submits == s.submits
  {
  }

  // ---------------------------------------------------------------- the rate limit

  /** Within a generation every released task used up a tick of its own. */
  predicate Paced(g: Generation) {
    g.spent + (if g.pending then 1 else 0) <= g.fired
  }

  function TotalSpent(gs: seq<Generation>): nat {
    if gs == [] then 0 else TotalSpent(gs[..|gs| - 1]) + gs[|gs| - 1].spent
  }

  function TotalFired(gs: seq<Generation>): nat {
    if gs == [] then 0 else TotalFired(gs[..|gs| - 1]) + gs[|gs| - 1].fired
  }

  ghost predicate RateLimited(s: State) {
    && (forall g :: 0 <= g < |s.generations| ==> Paced(s.generations[g]))
    && |s.executed| == TotalSpent(s.generations)
    && |s.queue| <= s.maxConcurrency
  }

  lemma {:induction false} SpentUpdate(gs: seq<Generation>, i: nat, g: Generation)
    requires i < |gs|
    ensures TotalSpent(gs[i := g]) == TotalSpent(gs) - gs[i].spent + g.spent
  {
    var n := |gs| - 1;
    if i == n {
      assert gs[i := g][..n] == gs[..n];
    } else {
      SpentUpdate(gs[..n], i, g);
      assert gs[i := g][..n] == gs[..n][i := g];
    }
  }

  lemma {:induction false} SpentWithinFired(gs: seq<Generation>)
    requires forall g :: 0 <= g < |gs| ==> Paced(gs[g])
    ensures TotalSpent(gs) <= TotalFired(gs)
  {
    if gs != [] {
      SpentWithinFired(gs[..|gs| - 1]);
    }
  }

  /** Replacing one generation by one as well paced, with the executions it accounts for. */
  lemma PacedUpdate(s: State, s': State, i: nat, g: Generation)
    requires RateLimited(s) && i < |s.generations| && Paced(g)
    requires s'.generations == s.generations[i := g] && s'.maxConcurrency == s.maxConcurrency
    requires |s'.executed| + s.generations[i].spent == |s.executed| + g.spent && |s'.queue| <= |s.queue|
    ensures RateLimited(s')
  {
    hide TotalSpent, Paced;
    SpentUpdate(s.generations, i, g);
  }

  lemma WorkKeepsRate(s: State, w: nat, select: Case)
    requires WorkEnabled(s, w, select) && RateLimited(s)
    ensures RateLimited(WorkAfter(s, w, select))
  {
    hide TotalSpent;
    var s', g := WorkAfter(s, w, select), s.workers[w].generation;
    assert s'.generations == s.generations[g := s'.generations[g]];
    PacedUpdate(s, s', g, s'.generations[g]);
  }

  lemma StartKeepsRate(s: State)
    requires RateLimited(s)
    ensures RateLimited(StartAfter(s))
  {
    if StartAccepts(s) {
      assert StartAfter(s).generations[..|s.generations|] == s.generations;
    }
  }

  lemma SubmitKeepsRate(s: State, k: nat, select: Case)
    requires SubmitEnabled(s, k, select) && RateLimited(s)
    ensures RateLimited(SubmitAfter(s, k, select))
  {
    hide TotalSpent, Paced;
  }

  lemma StopKeepsRate(s: State, k: nat)
    requires StopEnabled(s, k) && RateLimited(s)
    ensures RateLimited(StopAfter(s, k))
  {
    hide TotalSpent;
    if s.stops[k].Cancelling? {
      var g := s.stops[k].generation;
      PacedUpdate(s, StopAfter(s, k), g, s.generations[g].(cancelled := true, ticking := false));
    }
  }

  lemma RateLimitedKept(s: State, step: Step)
    requires Enabled(s, step) && RateLimited(s)
    ensures RateLimited(After(s, step))
  {
    hide TotalSpent, StartAfter, SubmitAfter, WorkAfter, StopAfter;
    match step
    case Start => StartKeepsRate(s);
    case Submit(k, select) => SubmitKeepsRate(s, k, select);
    case CancelParent(g) => PacedUpdate(s, After(s, step), g, s.generations[g].(cancelled := true));
    case Tick(g) => PacedUpdate(s, After(s, step), g, TickOf(s.generations[g]));
    case Work(w, select) => WorkKeepsRate(s, w, select);
    case Stop(k) => StopKeepsRate(s, k);
    case _ =>
  }

  // ---------------------------------------------------------------- over executions

  lemma {:induction false} Always(states: seq<State>, steps: seq<Step>, k: nat)
    requires IsExecution(states, steps) && k < |states|
    ensures Conserved(states[k]) && RateLimited(states[k])
  {
    hide Enabled, After, Conserved, RateLimited;
    if k == 0 {
      InitialFine(states[0]);
    } else {
      Always(states, steps, k - 1);
      StepAt(states, steps, k - 1);
      ConservedKept(states[k - 1], steps[k - 1]);
      RateLimitedKept(states[k - 1], steps[k - 1]);
    }
  }

  lemma InitialFine(s: State)
    requires Initial(s)
    ensures Conserved(s) && RateLimited(s)
  {
    assert AcceptedSet(s.submits) == {};
  }

  /** Accepted tasks are queued, held, executed or discarded, and nothing else is anywhere. */
  lemma TasksAccountedFor(states: seq<State>, steps: seq<Step>, k: nat)
    requires IsExecution(states, steps) && k < |states|
    ensures var s := states[k];
      |AcceptedSet(s.submits)| == |s.queue| + |Held(s.workers)| + |s.executed| + |s.discarded|
    ensures forall t :: t in states[k].executed ==> t < |states[k].submits| && states[k].submits[t] == Accepted
    ensures forall i, j :: 0 <= i < j < |states[k].executed| ==> states[k].executed[i] != states[k].executed[j]
  {
    hide Enabled, After, RateLimited, Held;
    Always(states, steps, k);
    var s := states[k];
    BagSize(AcceptedSet(s.submits));
    assert |Places(s)| == |s.queue| + |Held(s.workers)| + |s.executed| + |s.discarded|;
    forall t | t in s.executed ensures t in AcceptedSet(s.submits) {
      assert t in multiset(s.executed);
      assert t in Places(s);
    }
    forall i, j | 0 <= i < j < |s.executed| ensures s.executed[i] != s.executed[j] {
      assert Places(s)[s.executed[i]] <= 1;
      assert Places(s)[s.executed[i]] >= multiset(s.executed)[s.executed[i]];
      if s.executed[i] == s.executed[j] {
        TwiceInBag(s.executed, i, j);
      }
    }
  }

  lemma {:induction false} BagSize(a: set<nat>)
    ensures |multiset(a)| == |a|
  {
    if a != {} {
      var x :| x in a;
      BagSize(a - {x});
      assert multiset(a) == multiset(a - {x}) + multiset{x};
    }
  }

  lemma TwiceInBag(s: seq<nat>, i: nat, j: nat)
    requires i < j < |s| && s[i] == s[j]
    ensures multiset(s)[s[i]] >= 2
  {
    assert s == s[..j] + [s[j]] + s[j + 1..];
    assert s[i] in s[..j];
    assert multiset(s) == multiset(s[..j]) + multiset{s[j]} + multiset(s[j + 1..]);
  }

  /** Executions never outrun the ticker, and the queue never outgrows its capacity. */
  lemma ExecutionsPaced(states: seq<State>, steps: seq<Step>, k: nat)
    requires IsExecution(states, steps) && k < |states|
    ensures |states[k].executed| <= TotalFired(states[k].generations)
    ensures |states[k].queue| <= states[k].maxConcurrency
  {
    hide Enabled, After, Conserved;
    Always(states, steps, k);
    SpentWithinFired(states[k].generations);
  }
}
