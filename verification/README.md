# Verified model of the Damascus control plane

Damascus runs chaos experiments against a mesh of services: it ranks services by criticality, drives load at a target,
watches its metrics, stops when a limit is broken and reports the capacity it found. This project models the parts of
it where a mistake would matter and proves what they guarantee.

* **Graph analysis** (`Paths`, `DependencyGraphs`, `Reachability`, `Depths`, `Spof`, `SpofOrder`, `Scoring`). The
  work-queue loops are methods proved against walks in the graph: reachability, exact shortest distances, isolation as
  domination from the ingress roots, and a ranking that does not depend on map iteration order.
* **Capacity analysis** (`CapacityModel`, `Degradation`, `Recovery`, `RecoveryObjective`, `CapacityAnalyzer`,
  `CapacityLaws`, `ObservationStore`). The five numbers of a report, stated in terms of the readings themselves; their
  monotonicity in the policy; the agreement of the two recovery calculators; and what a trip through the database may
  change.
* **Experiment lifecycle** (`Lifecycle`, `ExperimentProtocol` and the modules that prove things about it). Starters,
  stoppers, a shutdown, snapshot handlers and one finisher per run, interleaved freely. `transitionState` is one step
  because it holds `stateMu` throughout; every section under `mu` and every `select` is a step of its own.
  `ExperimentLimits` says exactly which hazards each guarantee depends on.
* **Watcher** (`Telemetry`, `WatcherProtocol`, `WatcherSafety`), **engine loops** (`EngineLoops`) and **safety loop**
  (`SafetyStop`). Start, Stop and poll loops in any interleaving, and the path from failed polls to cancelled traffic.
* **Load generation** (`WorkerPool`, `RampSchedule`) and the **failure-cascade kernel** (`FailureCascade`) of the
  weight calibration script.

Floating-point numbers are exact reals, times are integer nanoseconds, `sort.Slice` is some function from a slice to a
permutation of it in order that leaves a slice in order alone (its shuffle is seeded by the length, so equal slices are
sorted equally; which order equal keys get otherwise is left open), and map iteration visits keys in any order. In the
protocol models the outcome of every call to another component (a query, a database call, a select with several ready
cases) is a free choice of the step.

Where the code and its own comments differ, the code is modelled, and where a promise fails the project gives the inputs
and the exact condition:

* `WatcherEngine.Stop` is documented to wait for its loop. `EngineLoops.StopDoesNotWait` shows a handler registered after
  Stop receiving the old loop's snapshot. A loop told to stop delivers nothing more exactly when no loop is told in the
  middle of a poll and no told loop takes a tick (`NothingLateExactlyWhen`), and at most one more snapshot exactly when
  no told loop takes a tick (`AtMostOneLateExactlyWhen`).
* The failure counter belongs to the engine and not to a loop. A breach a loop delivers rests on its own failures exactly
  when no older loop's query can end after it began, or the threshold is at most 1 (`BreachesOwnExactlyWhen`).
* A synthetic breach is documented to trip every reasonable policy; `FailSafeExactlyWhen` says which ones it trips.
* `state.go` describes ABORTED as the end of a run. `AbortedMeansCeasing` proves that traffic is then over, or one cancel
  from over, unless a starter that gave up or a StopExperiment that found no active run wrote the state while a run held
  the entry over a row come to RUNNING; `AbortedCeasesExactlyWhen` shows that both exceptions are needed.
* Traffic is launched once per experiment exactly when no finisher's abort of a row in RUNNING is lost
  (`LaunchedOnceExactlyWhen`); one such failed call suffices for a second launch.
* A service named `""` is hidden from SPOF detection by the sentinel; `SpofIsDominationButForEmpty` is exact for every
  mesh BuildGraph can build.
* Storing a reading rounds its rate and its timestamp; `HarmlessExactlyWhenSturdy` says which readings may be rounded
  without changing a recovery time, and `StorageMovesRecoveryByASecond` bounds the change for ordinary ones.

## Model

| member | source | states |
|---|---|---|
| DependencyGraphs.DependencyGraph.AddNode | internal/graph/graph.go:32-42 | returns the node on file under the name, creating it only when absent; every other node is untouched |
| DependencyGraphs.DependencyGraph.AddEdge | internal/graph/graph.go:45-49 | appends the edge, makes both ends nodes and keeps existing nodes: every edge endpoint is always a node |
| DependencyGraphs.DependencyGraph.InDegree | internal/graph/graph.go:52-60 | counts incoming edges, parallel ones separately |
| DependencyGraphs.DependencyGraph.OutDegree | internal/graph/graph.go:63-71 | counts outgoing edges, parallel ones separately |
| DependencyGraphs.NoEdgesInto | internal/graph/scoring.go:298-302 | the in-degree is zero exactly when no arc of the graph enters the service |
| Reachability.BuildAdjacency | internal/graph/scoring.go:352-356 | the adjacency list holds exactly the arcs of the graph |
| Reachability.FindIngressRoots | internal/graph/scoring.go:387-392 | finds exactly the services nothing calls |
| Reachability.GetReachableNodes | internal/graph/scoring.go:348-378 | a service is visited exactly when a walk from a root that never touches the excluded service ends at it |
| Depths.ComputeDepths | internal/graph/scoring.go:381-426 | every service reached from a service nothing calls gets the length of a shortest such walk, every other one 0, for every visiting order |
| Depths.LevelsDone | internal/graph/scoring.go:412-423 | when the queue runs dry, visited means reached and each recorded depth is attained by a walk and beaten by none |
| Depths.DistanceUnique | internal/graph/scoring.go:381 | the depth of a service is determined by the graph alone |
| Spof.IdentifySPOFs | internal/graph/scoring.go:284-345 | for any graph: the isolated list of a candidate has no repeats and holds exactly the services reached (clear of the name "") whose every walk from a root passes the candidate, given another root; a candidate is a SPOF exactly when its list is non-empty |
| Spof.SpofIsDominationButForEmpty | internal/graph/scoring.go:284-378 | on every mesh whose calls all leave named services, which is every mesh BuildGraph builds: the list of a candidate holds exactly the services other than "" that it severs from the ingress roots while another root exists, and it is a SPOF exactly when that list is non-empty; a mesh without ingress roots has no SPOF |
| Spof.SpofIsDomination | internal/graph/scoring.go:284-378 | on a mesh without a service named "": SPOF detection is domination itself |
| Spof.SmallMeshIsolatesNothing | internal/graph/scoring.go:293-295 | with at most two services nothing is isolated, so the early exit changes no answer |
| Spof.FallbackIsolatesNothing | internal/graph/scoring.go:304-309 | when every service has a caller, using all of them as roots isolates nothing |
| Spof.SentinelHidesOnlyItself | internal/graph/scoring.go:312 | when no call leaves a service named "", excluding that name hides that service from the search and no other |
| Spof.EmptyNameHidesIsolation | internal/graph/analyser.go:122-140 | a mesh BuildGraph can build, in which a span names no process: a service severs "" and every answer reports it as no SPOF |
| SpofOrder.IsolationIsStrictOrder | internal/graph/scoring.go:315-342 | isolation is irreflexive, asymmetric and transitive |
| SpofOrder.IsolatorsFormChain | internal/graph/scoring.go:315-342 | of two services isolating the same one, one isolates the other |
| SpofOrder.ReportedIsolationIsOrdered | internal/graph/scoring.go:315-344 | for every mesh BuildGraph can build the returned lists inherit both: a strict order in which all isolators of a service form a chain |
| Scoring.CollectNodeMetrics | internal/graph/scoring.go:229-280 | degrees count distinct callers and callees, and call frequency sums the effective frequency of every incoming edge |
| Scoring.FindMaxima | internal/graph/scoring.go:80-102 | each maximum bounds all services and is attained or zero |
| Scoring.RawScoreInUnit | internal/graph/scoring.go:107-132 | for convex weights and non-negative traffic the raw score lies in [0,1], so clamping is idle |
| Scoring.RoundedInUnit | internal/graph/scoring.go:131-133 | rounding stays in [0,1] and moves the score by at most half a hundredth |
| Scoring.NotAfterIsPreorder | internal/graph/scoring.go:145-150 | the comparison handed to the sort is a total preorder |
| Scoring.ScoreCriticalityWithWeights | internal/graph/scoring.go:71-153 | the result has exactly one entry per service with its score, strictly ordered by score down then name up; nil and empty graphs give an empty list |
| Scoring.RankingIsDetermined | internal/graph/scoring.go:83-152 | two rankings of one graph under one weighting are equal, whatever order the maps were walked in |
| Scoring.RankingScores | internal/graph/scoring.go:104-142 | every entry of a ranking is the rounded, unclamped weighted sum of that service's metrics and lies in [0,1] |
| CapacityModel.WeakerIffBreachesLess | internal/capacity/analyzer.go:150-161 | one policy is weaker than another by its thresholds exactly when every reading it calls a breach the other does too |
| Degradation.CalculateDegradationRate | internal/capacity/analyzer.go:183-219 | returns the rate of the first knee, or 0 when there is none |
| Degradation.KneeIsInterior | internal/capacity/analyzer.go:202-216 | a returned rate is a tested one, neither the lowest nor the highest |
| Degradation.SlopesBounded | internal/capacity/analyzer.go:206-215 | without a knee, slope k is at most max(0, slope 0) times 1.5 to the k |
| Degradation.StaysFlat | internal/capacity/analyzer.go:206-215 | without a knee, latency that stops rising never rises again |
| Degradation.LatencyGrowthBounded | internal/capacity/analyzer.go:183-219 | without a knee, total latency growth is within the matching geometric bound |
| Degradation.NoDegradationMeansGentle | internal/capacity/analyzer.go:183-219 | an answer of 0 on three or more ascending tiers implies all three |
| Recovery.SplitPostStress | internal/capacity/analyzer.go:223-233 | collects the zero-load readings that follow some load, in order |
| Recovery.CalculateRecoveryTime | internal/capacity/analyzer.go:222-253 | seconds from the start of the post-stress phase to its first compliant reading, or to its last reading |
| Recovery.RecoveryInWindow | internal/capacity/analyzer.go:239-252 | recovery lies between 0 and the length of the post-stress phase |
| Recovery.WeakerRecoversSooner | internal/capacity/analyzer.go:222-253 | on one timeline a weaker policy never lengthens recovery |
| RecoveryObjective.ExtractPreTestBaseline | internal/capacity/metrics.go:58-74 | succeeds exactly on a non-empty phase with positive total latency, with its mean; names the error otherwise |
| RecoveryObjective.CalculateRtoWithBaseline | internal/capacity/metrics.go:83-162 | the outcome, error cases included, is that of the sorted readings |
| RecoveryObjective.CalculateRto | internal/capacity/metrics.go:165-194 | no readings, no idle reading before the first load, and a baseline that is not positive give their errors; otherwise the outcome is that of the same sorted readings against the mean latency of the idle readings before the first load |
| RecoveryObjective.CalculatorsAgreeOn | internal/capacity/metrics.go:105-150 | with a positive threshold both calculators report the same seconds on one timeline, within the post-stress window |
| RecoveryObjective.AgreementExactlyWhenThresholdPositive | internal/capacity/metrics.go:77-80 | they agree on every timeline exactly when the rounded threshold is positive |
| CapacityAnalyzer.MaximumTested | internal/capacity/analyzer.go:44-50 | the greatest rounded load rate, or 0 |
| CapacityAnalyzer.Aggregate | internal/capacity/analyzer.go:61-87 | one entry per positive rounded rate with exact sums, count, minimum availability and whether any reading breached |
| CapacityAnalyzer.BuildTiers | internal/capacity/analyzer.go:89-106 | exactly the active tiers, by strictly ascending rate, with their means |
| CapacityAnalyzer.TierCompliantIffUnbreached | internal/capacity/analyzer.go:164-178 | a tier is compliant exactly when none of its readings breached: the mean and minimum checks follow |
| CapacityAnalyzer.ScanTiers | internal/capacity/analyzer.go:109-126 | the sustainable rate is the greatest tier without a breach, the boundary the least tier with one or else the sustainable rate |
| CapacityAnalyzer.Analyze | internal/capacity/analyzer.go:38-147 | all five numbers, stated over the readings and their sorted order; zeros for no readings |
| CapacityLaws.LimitsWithinTested | internal/capacity/analyzer.go:43-126 | sustainable and boundary rates never exceed the tested rate |
| CapacityLaws.BelowBoundaryIsClean | internal/capacity/analyzer.go:109-126 | every tier below the boundary is free of breaches and at most the sustainable rate |
| CapacityLaws.WeakerPolicyRaisesLimits | internal/capacity/analyzer.go:108-129 | weakening the policy never lowers the sustainable or boundary rate and leaves tested and degradation rates alone |
| CapacityLaws.WeakerPolicyRecoversSooner | internal/capacity/analyzer.go:131-138 | weakening the policy never lengthens recovery, equal timestamps included: both analyses sort the same readings into the same order |
| CapacityLaws.AnalysisMatchesObjective | internal/capacity/metrics.go:83-162 | with a positive threshold and a post-stress phase, the recovery time of Analyze under that threshold alone equals the RTO seconds, within the post-stress window |
| CapacityLaws.TotalPermuted | internal/capacity/analyzer.go:78-79 | tier sums do not depend on the order of the readings |
| CapacityLaws.RatesIgnoreOrderAndRounding | internal/capacity/analyzer.go:43-129 | the four rates survive any reordering and any change that keeps tier, latency, errors and availability |
| ObservationStore.ObservationTable.SaveObservation | internal/storage/postgres.go:469-510 | appends one reading with the rate rounded, the time to the microsecond and an unset time replaced by now, for its experiment only; fails on a blank id, a failed statement or a rate outside the column, leaving rows alone |
| ObservationStore.ObservationTable.GetObservations | internal/storage/postgres.go:513-566 | the readings saved for the experiment, by time then insertion |
| ObservationStore.QueryRearranges | internal/storage/postgres.go:518-529 | a query result is a chronological rearrangement of what was saved |
| ObservationStore.StorageKeepsRates | internal/storage/postgres.go:469-566 | saving and loading changes none of the four rates of Analyze |
| ObservationStore.HarmlessExactlyWhenSturdy | internal/storage/postgres.go:474-529 | whichever way equal times are sorted: what the columns make of a reading they can take changes the recovery time of no stored and loaded run under no policy exactly when its rate is not strictly within half a request of zero (zero apart) and, unless the rate is negative, its time is a whole microsecond |
| ObservationStore.StorageKeepsRecovery | internal/storage/postgres.go:469-566 | saving and loading leaves the recovery time of Analyze unchanged when times are set and distinct and every reading meets that condition |
| ObservationStore.StorageMovesRecoveryByASecond | internal/storage/postgres.go:469-566 | when times are set and more than a microsecond apart and every rate is clear of zero, saving and loading moves the recovery time of Analyze by at most one second |
| ObservationStore.AlikeRecoverAlike | internal/capacity/analyzer.go:222-253 | runs whose readings agree one by one in phase, time and metrics recover alike in whatever order they were saved, and negative rates do not matter |
| Lifecycle.HistoryShape | internal/experiment/state.go:19-47 | a history that follows the table has strictly rising ranks, at most six writes, and a terminal state only at its end |
| Lifecycle.ColumnsTellHistory | internal/storage/postgres.go:443-450 | started_at is the time RUNNING was entered, if ever, ended_at that of the terminal write, if any, and stop_reason the last non-empty reason |
| Lifecycle.ExperimentTable.UpdateState | internal/storage/postgres.go:438-466 | the row becomes the old row with the write applied, also when a failed call was applied all the same |
| Lifecycle.TransitionState | internal/experiment/manager.go:313-338 | one call changes at most the named row, by at most one allowed move, and succeeds without writing when already there |
| ExperimentSafety.ToldKept | internal/experiment/manager.go:313-338 | every step keeps each row equal to the replay of a legal history |
| ExperimentSafety.TokensKept | internal/experiment/manager.go:187-201 | every step keeps activeRuns equal to the map of runs between claiming and releasing |
| ExperimentSafety.OneHolderPerExperiment | internal/experiment/manager.go:187-195 | two runs of one experiment never hold the entry together |
| ExperimentSafety.OnlyHolderReleases | internal/experiment/manager.go:305-309 | an entry disappears only by a step of the run it names, and is never overwritten |
| ExperimentSafety.AccountedKept | internal/experiment/manager.go:419-455 | every step keeps what finishers carry equal to the analysis of the readings they carry, and completed rows reported |
| ExperimentSafety.IndexedKept | internal/experiment/manager.go:267-276 | every step keeps the runs named by handlers, stoppers and the shutdown within the runs there are |
| ExperimentLaunch.EntersHolding | internal/experiment/manager.go:187-197 | a starter that goes on to launch holds the token over a row that is not terminal |
| ExperimentLaunch.EntersFromPlanned | internal/experiment/manager.go:197 | while RUNNING rows are held, a starter that enters RUNNING found PLANNED: the equal-state shortcut is not taken there |
| ExperimentLaunch.RunningHeldKept | internal/experiment/manager.go:187-201 | every step that does not lose the acknowledgement of a move to RUNNING keeps RUNNING rows held by a run with traffic |
| ExperimentLaunch.RisenKept | internal/experiment/manager.go:197-203 | every step keeps the row of each run with traffic on record at RUNNING or later |
| ExperimentLaunch.LaunchOnceKept | internal/experiment/manager.go:134-265 | every step but a lost abort of a row in RUNNING keeps at most one run with traffic per experiment, and rows past RUNNING once their finisher comes to its release |
| ExperimentProgress.WoundDownKept | internal/experiment/manager.go:351-382 | every step keeps: a finisher on the success path has an ended stress context or a returned engine call |
| ExperimentProgress.RunRises | internal/experiment/manager.go:340-455 | no step raises a run's measure or revives its contexts, and its own goroutines' steps lower the measure |
| ExperimentProgress.OwnStepExists | internal/experiment/manager.go:351-364 | a run whose stress context is over and whose finisher has not ended can always take a step of its own |
| ExperimentProgress.FinisherCompletes | internal/experiment/manager.go:340-459 | its own goroutines alone bring such a run, unless its abort was lost before, within its measure to a terminal row and a released token |
| ExperimentAborts.TidyKept | internal/experiment/manager.go:351-382 | every step keeps: a finisher on its way out has its traffic over or a failure being signalled |
| ExperimentAborts.AbortedCeasesKept | internal/experiment/manager.go:340-459 | every step keeps: once a row is ABORTED, each run of the experiment with traffic on record is past its traffic or one cancel from it, unless a starter or stopper writes the state while a run holds the entry over a row at RUNNING or later |
| ExperimentExecution.TokenIsExclusive | internal/experiment/manager.go:187-195 | in every execution, failures included, at most one run per experiment holds the activeRuns entry |
| ExperimentExecution.TrafficLaunchedOnce | internal/experiment/manager.go:134-265 | in every execution that loses no finisher's abort of a row in RUNNING, whatever else fails, traffic is launched at most once ever per experiment |
| ExperimentExecution.RunningOnlyFromPlanned | internal/experiment/manager.go:325-327 | in every such execution that loses no acknowledgement of a move to RUNNING, a starter that launches held the entry and found PLANNED |
| ExperimentExecution.GuardsNeverBlock | internal/experiment/manager.go:267-276 | in every execution the run numbers callers hold denote runs, so no stopper, handler or shutdown is blocked by the model's index guards |
| ExperimentExecution.AbortedMeansCeasing | internal/experiment/manager.go:340-459 | in every execution, whatever fails, a launched run with an ABORTED row has a cancelled stress context, a returned engine call, or a signalled failure about to cancel it, unless a starter or a stopper wrote ABORTED while a run held the entry over a row at RUNNING or later |
| ExperimentExecution.RowHistory | internal/experiment/manager.go:313-338 | in every execution each row is the replay of a legal history with rising ranks and at most six writes |
| ExperimentExecution.TerminalForever | internal/experiment/state.go:44-46 | in every execution a terminal row never changes again |
| ExperimentExecution.CreatedRowColumns | internal/storage/postgres.go:443-450 | in every execution the time and reason columns of a created row tell its history |
| ExperimentExecution.CompletedHasReport | internal/experiment/manager.go:434-454 | in every execution a row completed by the manager has a saved report whose numbers are the analyzer's of its own readings |
| ExperimentExecution.CompletedNumbersAreAnalysis | internal/report/generator.go:119-143 | when the configured analyzer is Analyze, those five numbers are the analysis of the report's own readings under the experiment's policy |
| ExperimentExecution.AnalysisInQuiet | internal/experiment/manager.go:351-364 | in every execution that loses no finisher's abort of a row in RUNNING, ANALYZING, REPORTING and COMPLETED imply the stress context ended or the engine returned |
| ExperimentExecution.OwnStepsBounded | internal/experiment/manager.go:340-455 | however others interleave, a run's goroutines take at most as many steps as its measure says |
| ExperimentExecution.RunCanComplete | internal/experiment/manager.go:340-459 | from any point of any execution a run with an ended stress context that has not come to its release, or has left its row terminal, can finish on its own |
| ExperimentLimits.AbortedCeasesExactlyWhen | internal/experiment/manager.go:163-176 | ABORTED means past traffic in every execution exactly when neither a starter that gives up nor a StopExperiment that found no active run may write it while a run holds the entry over a row at RUNNING or later |
| ExperimentLimits.AbandonedUnderTraffic | internal/experiment/manager.go:163-167 | an execution in which a second starter's failed graph query aborts the row under live traffic |
| ExperimentLimits.StoppedUnderTraffic | internal/experiment/manager.go:268-288 | an execution in which a StopExperiment looks the entry up before the starter claims it and aborts the row after traffic was launched |
| ExperimentLimits.AbortedBeforeCancel | internal/experiment/manager.go:211-229 | an execution in which a handler's save fails and the finisher aborts the row between the two statements of signalFailure, with every context open and the engine at work |
| ExperimentLimits.LaunchedOnceExactlyWhen | internal/experiment/manager.go:457-459 | traffic is launched at most once per experiment in every execution exactly when no finisher's abort of a row in RUNNING is lost: no other call matters |
| ExperimentLimits.RelaunchAfterLostAbort | internal/experiment/manager.go:457-459 | an execution with a single failed repository call, the read of the abort after the engine refused to start, in which traffic is launched twice |
| Telemetry.TrailingMeansAllFailed | internal/watcher/evaluator.go:184-203 | the failure counter is at least n exactly when the last n polls failed |
| Telemetry.SyntheticTrips | internal/watcher/evaluator.go:273-288 | a synthetic breach trips a policy exactly when its error limit lies strictly between 0 and 1 or it sets an availability floor |
| WatcherSafety.SoundKept | internal/watcher/watcher.go:142-311 | every step keeps the channel, stop and delivery invariants |
| WatcherSafety.ChannelDiscipline | internal/watcher/watcher.go:142-254 | in every execution nothing panics, at most one output channel is open, each is closed at most once and exactly once by an exited loop, and stopped means no run on record |
| WatcherSafety.StopMeansStopped | internal/watcher/watcher.go:184-208 | when a Stop that saw a run returns, that run's channels are closed and it is off the record |
| WatcherSafety.DeliveredInOrder | internal/watcher/watcher.go:258-311 | received then buffered snapshots are an ordered selection of those the polls gave rise to, synthetic ones exactly at the threshold |
| WatcherSafety.NoSendAfterClose | internal/watcher/watcher.go:224-225 | nothing enters a closed channel |
| WatcherSafety.StopCanReturn | internal/watcher/watcher.go:184-208 | from any reachable state a waiting Stop is a bounded number of steps of its run's loop and of the goroutine owing the cancel away from returning |
| EngineLoops.OneLoopLeft | internal/watcher/evaluator.go:122-150 | in every execution at most one loop has not been told to stop, the newest of a running engine |
| EngineLoops.CounterIsShared | internal/watcher/evaluator.go:183-206 | in every execution the counter holds the failures in a row since the last Start that started a loop, over all loops alike |
| EngineLoops.StopDoesNotWait | internal/watcher/evaluator.go:139-150 | an execution, for any threshold, in which Stop returns during a query and a handler registered afterwards receives its answer |
| EngineLoops.NothingLateExactlyWhen | internal/watcher/evaluator.go:139-177 | for any threshold: a loop told to stop delivers nothing more in every execution exactly when no loop is told in the middle of a poll and no told loop takes a tick |
| EngineLoops.AtMostOneLateExactlyWhen | internal/watcher/evaluator.go:160-177 | for any threshold: it delivers at most one more snapshot in every execution exactly when no told loop takes a tick; queries begun after the cancel fail |
| EngineLoops.CountsOwnExactlyWhen | internal/watcher/evaluator.go:131-135 | the counter is the newest loop's own in every execution exactly when no older loop's query can end after it began |
| EngineLoops.BreachesOwnExactlyWhen | internal/watcher/evaluator.go:183-198 | a breach the newest loop is about to deliver rests on threshold failures of its own in every execution exactly when no older loop's query can end after it began, or the threshold is at most 1 |
| SafetyStop.Controller.Evaluate | internal/safety/policy.go:90-155 | stops exactly on an SLA breach and appends one record naming the first broken limit |
| SafetyStop.EvaluateWithoutAudit | internal/safety/controller.go:26-59 | decides the same |
| SafetyStop.JustifiedUnique | internal/safety/policy.go:90-124 | a snapshot has exactly one justified audit record, a breach exactly when evaluation stops |
| SafetyStop.EvaluatingController.HandleSnapshot | internal/safety/controller.go:120-146 | after any snapshots the cancel function was called once if one breached and never otherwise, with one audit record each |
| SafetyStop.RunHandler.SignalFailure | internal/experiment/manager.go:211-217 | the failure is signalled and both contexts are cancelled on return |
| SafetyStop.RunHandler.Handle | internal/experiment/manager.go:219-243 | the stress context is over on return exactly when it was, the save failed, no controller is set or the snapshot breached; only the last reading saved under live traffic can breach |
| SafetyStop.WatcherEngine.Start | internal/watcher/evaluator.go:122-137 | starting a running engine changes nothing, otherwise the failure count begins anew |
| SafetyStop.WatcherEngine.Poll | internal/watcher/evaluator.go:183-267 | forwards the answer, or a synthetic breach exactly when consecutive failures reach the threshold, and nothing else |
| SafetyStop.WatcherEngine.PollLoop | internal/watcher/evaluator.go:160-177 | over any sequence of polls, traffic is cancelled exactly when some forwarded snapshot breaches |
| SafetyStop.SyntheticExactlyAtThreshold | internal/watcher/evaluator.go:196-198 | a failed poll forwards a synthetic breach exactly when the last threshold polls all failed |
| SafetyStop.OutageStopsTraffic | internal/watcher/evaluator.go:220-253 | an outage of threshold length stops traffic under an error limit between 0 and 1 or an availability floor |
| SafetyStop.FailSafeExactlyWhen | internal/watcher/evaluator.go:25-32 | every long outage stops traffic exactly under those policies |
| WorkerPool.ConservedKept | internal/stress/worker.go:34-135 | every step keeps each accepted task in exactly one place |
| WorkerPool.TasksAccountedFor | internal/stress/worker.go:74-117 | in every execution accepted tasks equal queued plus held plus executed plus discarded, and none is executed twice |
| WorkerPool.ExecutionsPaced | internal/stress/worker.go:73-94 | in every execution executions never exceed ticks fired and the queue never exceeds maxConcurrency |
| RampSchedule.Validate | internal/stress/ramp.go:42-64 | accepts exactly the valid plans |
| RampSchedule.DurationExact | internal/stress/load_plan.go:17 | a validated duration is positive and does not wrap, and one second above the limit would |
| RampSchedule.ScheduleRises | internal/stress/ramp.go:77-98 | the rates min(Initial + k*Step, Max) rise strictly and end at Max |
| RampSchedule.CeilingAtLast | internal/stress/ramp.go:88-97 | the maximum is met at the last step and at no earlier one |
| RampSchedule.CalculateSteps | internal/stress/ramp.go:67-101 | yields exactly that schedule for every valid plan, without 64-bit overflow |
| RampSchedule.Run | internal/stress/ramp.go:107-156 | calls the handler on a prefix of the same schedule, the whole of it exactly when nothing interrupts |
| FailureCascade.IsServiceHealthy | scripts/simulate_weights.py:341-352 | terminates when the followed calls are acyclic, answers whether no failed service lies along critical calls, and keeps a shared memo true |
| FailureCascade.BelowShrinks | scripts/simulate_weights.py:347-350 | following a critical call strictly shrinks the set of services below |
| FailureCascade.Cascade | scripts/simulate_weights.py:354-358 | fails exactly the services that reach the target along critical calls |
| FailureCascade.TransactionLoss | scripts/simulate_weights.py:363-374 | the weight of the transactions that touch the cascade over the total weight, or 0 |
| FailureCascade.StillReached | scripts/simulate_weights.py:376-390 | exactly the services a walk from an ingress route reaches around the cascade |
| FailureCascade.InjectFailure | scripts/simulate_weights.py:326-396 | the three damage ratios of one injected failure |
| FailureCascade.ImpactInUnit | scripts/simulate_weights.py:393-396 | the composite impact is positive and at most 1 for non-negative shares |
| FailureCascade.SimulateMeshFailureImpact | scripts/simulate_weights.py:312-396 | every service of an acyclic mesh gets its damage |
| FailureCascade.Normalise | scripts/simulate_weights.py:398-404 | normalised impacts lie in [0,1], keep their order, and reach 1 when any was positive |

## Left out

- HTTP routing, environment loading, health probes and the user interface (`internal/api`, `cmd`, `internal/observability`, `web`).
- Event streaming (`internal/events`): Kafka client plumbing and JSON envelopes.
- Requests to Prometheus, Jaeger and the target, and the request loop of the stress engine: free outcomes of steps.
- SQL connections, transactions and the report and score tables beyond the effect described; a writer other than this manager.
- Load plan and URL validation at the head of StartExperiment: a rejected call has no effect on the protocol.
- The internals of the stress engine and watcher inside the experiment protocol: their Stop calls have no effect on its state, as for an engine that has not yet stored its cancel function (`internal/stress/engine.go:112-121`), and their returns may come at any time.
- Fairness: progress is proved as an enabled step, a bound and a schedule, not as eventual occurrence.
- State strings outside the eight states, which ValidateTransition refuses.
- Human-readable reasons, log lines and their formats; the lists of caller and callee names, of which only the sizes are kept.
- Floating-point rounding error, NaN and infinities; saturation of time differences beyond 292 years; timestamps outside the column's range. A time halfway between two microseconds is kept as the even one.
- `compute_graph_features`, the rank statistics and the weight search of the calibration script.
- Blank ids are strings of spaces, tabs and line breaks; other Unicode white space is not modelled.
