/** internal/storage/postgres.go, SaveObservation and GetObservations: a rounding, ordering store.

    SQL is reduced to its effect on rows; `dbOk` stands for the outcome of the statement. */
module ObservationStore {
  import opened CapacityModel
  import opened CapacityAnalyzer
  import opened CapacityLaws
  import opened Recovery
  import opened Rounding
  import opened Sorting

  /** Timestamps count from Go's zero time, which SaveObservation takes to mean "unset". */
  const ZERO_TIME: int := 0

  datatype Row = Row(id: nat, experimentId: string, timestamp: int, loadRate: int, p95Latency: real, errorRate: real,
                     availability: real, cpuUtilization: real, memoryUtilization: real)

  datatype StoreError = EmptyExperimentId | InsertFailed | QueryFailed

  datatype Outcome<T> = Ok(value: T) | Err(error: StoreError)

  predicate IsBlank(s: string) {
    forall i :: 0 <= i < |s| ==> s[i] in {' ', '\t', '\n', '\r'}
  }

  /** The load_rate column is a 32-bit INT. */
  predicate FitsInt(n: int) {
    -0x8000_0000 <= n <= 0x7FFF_FFFF
  }

  function Loaded(r: Row): Observation {
    Observation(r.timestamp, r.loadRate as real, r.p95Latency, r.errorRate, r.availability, r.cpuUtilization,
      r.memoryUtilization)
  }

  function LoadedFn(): Row -> Observation {
    (r: Row) => Loaded(r)
  }

  /** The timestamp column keeps microseconds: the nearest one, the even one of two equally near. */
  function Microsecond(t: int): int {
    var q, r := t / 1000, t % 1000;
    1000 * (if r < 500 || (r == 500 && q % 2 == 0) then q else q + 1)
  }

  predicate WholeMicrosecond(t: int) {
    t % 1000 == 0
  }

  lemma MicrosecondIsNearest(t: int)
    ensures WholeMicrosecond(Microsecond(t)) && -500 <= t - Microsecond(t) <= 500
    ensures WholeMicrosecond(t) <==> Microsecond(t) == t
  {
  }

  /** What the two rounding columns keep of a reading. */
  function Kept(o: Observation): Observation {
    o.(timestamp := Microsecond(o.timestamp), loadRate := Round(o.loadRate) as real)
  }

  /** What one reading looks like after a round trip. */
  function Stored(o: Observation, now: int): Observation {
    Kept(if o.timestamp == ZERO_TIME then o.(timestamp := now) else o)
  }

  function RowsOf(rows: seq<Row>, experimentId: string): seq<Row> {
    if rows == [] then []
    else
      var last := rows[|rows| - 1];
      RowsOf(rows[..|rows| - 1], experimentId) + (if last.experimentId == experimentId then [last] else [])
  }

  /** The experiment's readings as stored, in the order they were saved. */
  function Saved(rows: seq<Row>, experimentId: string): seq<Observation> {
    MapSeq(RowsOf(rows, experimentId), LoadedFn())
  }

  /** ORDER BY timestamp ASC, id ASC. */
  function ByTimeThenId(): (Row, Row) -> bool {
    (a: Row, b: Row) => a.timestamp < b.timestamp || (a.timestamp == b.timestamp && a.id <= b.id)
  }

  ghost predicate IsQueryResult(rows: seq<Row>, experimentId: string, observations: seq<Observation>) {
    exists ord :: IsSorting(RowsOf(rows, experimentId), ord, ByTimeThenId()) && observations == MapSeq(ord, LoadedFn())
  }

  /** Ids grow with insertion, and every rate fits its column. */
  ghost predicate IsTable(rows: seq<Row>) {
    && (forall i, j :: 0 <= i < j < |rows| ==> rows[i].id < rows[j].id)
    && forall i :: 0 <= i < |rows| ==> FitsInt(rows[i].loadRate)
  }

  lemma RowsOfAppend(rows: seq<Row>, row: Row, experimentId: string)
    ensures RowsOf(rows + [row], experimentId) == RowsOf(rows, experimentId)
        + (if row.experimentId == experimentId then [row] else [])
  {
    assert (rows + [row])[..|rows|] == rows;
  }

  class ObservationTable {
    var rows: seq<Row>
    var nextId: nat

    ghost predicate Valid()
      reads this
    {
      IsTable(rows) && forall i :: 0 <= i < |rows| ==> rows[i].id < nextId
    }

    constructor ()
      ensures Valid() && rows == []
    {
      rows, nextId := [], 1;
    }

    method SaveObservation(experimentId: string, obs: Observation, now: int, dbOk: bool) returns (r: Outcome<()>)
      requires Valid()
      modifies this
      ensures Valid()
      ensures r.Ok? <==> !IsBlank(experimentId) && dbOk && FitsInt(Round(obs.loadRate))
      ensures r.Err? ==> rows == old(rows) && (r.error == EmptyExperimentId <==> IsBlank(experimentId))
      ensures r.Ok? ==> Saved(rows, experimentId) == Saved(old(rows), experimentId) + [Stored(obs, now)]
      ensures r.Ok? ==> forall other :: other != experimentId ==> Saved(rows, other) == Saved(old(rows), other)
    {
      if IsBlank(experimentId) {
        return Err(EmptyExperimentId);
      }
      var ts := obs.timestamp;
      if ts == ZERO_TIME {
        ts := now;
      }
      var loadRate := Round(obs.loadRate);
      if !dbOk || !FitsInt(loadRate) {
        return Err(InsertFailed);
      }
      var row := Row(nextId, experimentId, Microsecond(ts), loadRate, obs.p95LatencyMs, obs.errorRate, obs.availability,
          obs.cpuUtilization, obs.memoryUtilization);
      forall e ensures RowsOf(rows + [row], e) == RowsOf(rows, e) + (if row.experimentId == e then [row] else []) {
        RowsOfAppend(rows, row, e);
      }
      rows := rows + [row];
      nextId := nextId + 1;
      return Ok(());
    }

    method GetObservations(experimentId: string, dbOk: bool) returns (r: Outcome<seq<Observation>>)
      ensures r.Ok? <==> !IsBlank(experimentId) && dbOk
      ensures r.Ok? ==> IsQueryResult(rows, experimentId, r.value)
    {
      if IsBlank(experimentId) {
        return Err(EmptyExperimentId);
      }
      if !dbOk {
        return Err(QueryFailed);
      }
      var mine: seq<Row> := [];
      for i := 0 to |rows|
        invariant mine == RowsOf(rows[..i], experimentId)
      {
        assert rows[..i + 1][..i] == rows[..i];
        if rows[i].experimentId == experimentId {
          mine := mine + [rows[i]];
        }
      }
      assert rows[..|rows|] == rows;
      ByTimeThenIdIsPreorder();
      var ord := Sort(mine, ByTimeThenId());
      return Ok(MapSeq(ord, LoadedFn()));
    }
  }

  lemma ByTimeThenIdIsPreorder()
    ensures TotalPreorder(ByTimeThenId())
  {
  }

  /** A query returns the saved readings, rearranged into time order. */
  lemma QueryRearranges(rows: seq<Row>, experimentId: string, observations: seq<Observation>)
    requires IsQueryResult(rows, experimentId, observations)
    ensures Permuted(Saved(rows, experimentId), observations)
    ensures IsTimeline(Saved(rows, experimentId), observations)
  {
    var ord :| IsSorting(RowsOf(rows, experimentId), ord, ByTimeThenId()) && observations == MapSeq(ord, LoadedFn());
    MapPermuted(RowsOf(rows, experimentId), ord, LoadedFn());
    forall i, j | 0 <= i < j < |observations| ensures ByTime()(observations[i], observations[j]) {
      assert ByTimeThenId()(ord[i], ord[j]);
    }
  }

  /** The readings of a run as its rows show them; nows[i] is the clock at the i-th save. */
  function StoredAll(obs: seq<Observation>, nows: seq<int>): seq<Observation>
    requires |obs| == |nows|
  {
    seq(|obs|, i requires 0 <= i < |obs| => Stored(obs[i], nows[i]))
  }

  /** Saving and loading a run changes none of the four rates of its analysis. */
  lemma StorageKeepsRates(obs: seq<Observation>, nows: seq<int>, rows: seq<Row>, experimentId: string,
                          loaded: seq<Observation>, ord: seq<Observation>, ord': seq<Observation>, policy: SafetyPolicy,
                          before: CapacityResult, after: CapacityResult)
    requires |obs| == |nows| && Saved(rows, experimentId) == StoredAll(obs, nows)
    requires IsQueryResult(rows, experimentId, loaded)
    requires IsAnalysis(obs, ord, policy, before) && IsAnalysis(loaded, ord', policy, after)
    ensures before.maximumTestedRate == after.maximumTestedRate
    ensures before.maximumSustainableRate == after.maximumSustainableRate
    ensures before.degradationRate == after.degradationRate
    ensures before.safetyBoundaryRate == after.safetyBoundaryRate
  {
    hide IsAnalysis, IsQueryResult, IsTimeline, Permuted;
    forall i | 0 <= i < |obs| ensures SameReading(obs[i], StoredAll(obs, nows)[i]) {
      RoundOfInt(Round(obs[i].loadRate));
    }
    QueryRearranges(rows, experimentId, loaded);
    RatesIgnoreOrderAndRounding(obs, StoredAll(obs, nows), loaded, ord, ord', policy, before, after);
  }

  // ---------------------------------------------------------------- recovery looks at phases and times

  /** Rounding leaves the phase of a reading alone unless its rate lies strictly within half a request of zero. */
  predicate ClearOfZero(o: Observation) {
    o.loadRate == 0.0 || o.loadRate >= 0.5 || o.loadRate <= -0.5
  }

  /** A negative rate is neither load nor idleness, so recovery passes over it. */
  predicate Counts(o: Observation) {
    o.loadRate >= 0.0
  }

  /** Rounding cannot show in recovery: the reading keeps its phase, and its time if recovery looks at it. */
  predicate Sturdy(o: Observation) {
    ClearOfZero(o) && (Counts(o) ==> WholeMicrosecond(o.timestamp))
  }

  function Counted(obs: seq<Observation>): seq<Observation> {
    if obs == [] then []
    else Counted(obs[..|obs| - 1]) + (if Counts(obs[|obs| - 1]) then [obs[|obs| - 1]] else [])
  }

  lemma {:induction false} CountedElements(obs: seq<Observation>)
    ensures forall o :: o in Counted(obs) <==> o in obs && Counts(o)
  {
    if obs != [] {
      CountedElements(obs[..|obs| - 1]);
      assert obs == obs[..|obs| - 1] + [obs[|obs| - 1]];
    }
  }

  lemma StressedCounted(obs: seq<Observation>)
    ensures Stressed(Counted(obs)) <==> Stressed(obs)
  {
    CountedElements(obs);
    if Stressed(obs) {
      var o :| o in obs && o.loadRate > 0.0;
      assert o in Counted(obs);
    }
  }

  lemma {:induction false} PostStressCounted(obs: seq<Observation>)
    ensures PostStress(Counted(obs)) == PostStress(obs)
  {
    hide Stressed;
    if obs != [] {
      var init, last := obs[..|obs| - 1], obs[|obs| - 1];
      PostStressCounted(init);
      StressedCounted(init);
      assert PostStress(obs) == PostStress(init) + (if Stressed(init) && last.loadRate == 0.0 then [last] else []);
      if Counts(last) {
        assert Counted(obs) == Counted(init) + [last];
        assert Counted(obs)[..|Counted(init)|] == Counted(init);
      } else {
        assert Counted(obs) == Counted(init);
      }
    }
  }

  lemma {:induction false} CountedBag(obs: seq<Observation>, o: Observation)
    ensures multiset(Counted(obs))[o] == if Counts(o) then multiset(obs)[o] else 0
  {
    if obs != [] {
      CountedBag(obs[..|obs| - 1], o);
      assert obs == obs[..|obs| - 1] + [obs[|obs| - 1]];
    }
  }

  lemma {:induction false} CountedChronological(obs: seq<Observation>)
    requires Chronological(obs)
    ensures Chronological(Counted(obs))
  {
    if obs != [] {
      var init := obs[..|obs| - 1];
      CountedChronological(init);
      CountedElements(init);
      forall i | 0 <= i < |Counted(init)| ensures Counted(init)[i].timestamp <= obs[|obs| - 1].timestamp {
        assert Counted(init)[i] in init;
      }
    }
  }

  lemma CountedTimeline(obs: seq<Observation>, ord: seq<Observation>)
    requires IsTimeline(obs, ord)
    ensures IsTimeline(Counted(obs), Counted(ord))
  {
    TimelineIsChronological(obs, ord);
    CountedChronological(ord);
    forall o ensures multiset(Counted(obs))[o] == multiset(Counted(ord))[o] {
      CountedBag(obs, o);
      CountedBag(ord, o);
    }
  }

  // ---------------------------------------------------------------- readings recovery cannot tell apart

  /** The same metrics in the same phase, at times no further apart than the slack. */
  predicate SamePhase(a: Observation, b: Observation, slack: nat) {
    && SameReading(a, b) && a.timestamp <= b.timestamp + slack && b.timestamp <= a.timestamp + slack
    && (a.loadRate > 0.0 <==> b.loadRate > 0.0) && (a.loadRate == 0.0 <==> b.loadRate == 0.0)
  }

  ghost predicate SamePhases(a: seq<Observation>, b: seq<Observation>, slack: nat) {
    |a| == |b| && forall i :: 0 <= i < |a| ==> SamePhase(a[i], b[i], slack)
  }

  predicate Alike(a: Observation, b: Observation) {
    (!Counts(a) && !Counts(b)) || SamePhase(a, b, 0)
  }

  ghost predicate AllAlike(a: seq<Observation>, b: seq<Observation>) {
    |a| == |b| && forall i :: 0 <= i < |a| ==> Alike(a[i], b[i])
  }

  ghost predicate NoTwoAtOnce(obs: seq<Observation>) {
    forall i, j :: 0 <= i < j < |obs| ==> obs[i].timestamp != obs[j].timestamp
  }

  lemma {:induction false} CountedAlike(a: seq<Observation>, b: seq<Observation>)
    requires AllAlike(a, b)
    ensures SamePhases(Counted(a), Counted(b), 0)
  {
    hide SameReading;
    if a != [] {
      CountedAlike(a[..|a| - 1], b[..|b| - 1]);
      assert Alike(a[|a| - 1], b[|b| - 1]);
    }
  }

  lemma {:induction false} CountedApart(obs: seq<Observation>)
    requires NoTwoAtOnce(obs)
    ensures NoTwoAtOnce(Counted(obs))
  {
    if obs != [] {
      var init := obs[..|obs| - 1];
      CountedApart(init);
      CountedElements(init);
      forall i | 0 <= i < |Counted(init)| ensures Counted(init)[i].timestamp != obs[|obs| - 1].timestamp {
        assert Counted(init)[i] in init;
      }
    }
  }

  function TimeFn(): Observation -> int {
    (o: Observation) => o.timestamp
  }

  /** Sorting readings of the same times gives the same times in the same places. */
  lemma SameTimes(a: seq<Observation>, b: seq<Observation>, ra: seq<Observation>, rb: seq<Observation>)
    requires SamePhases(a, b, 0) && IsTimeline(a, ra) && IsTimeline(b, rb)
    ensures |ra| == |rb| && forall k :: 0 <= k < |ra| ==> ra[k].timestamp == rb[k].timestamp
  {
    hide Permuted, SameReading;
    MapPermuted(a, ra, TimeFn());
    MapPermuted(b, rb, TimeFn());
    assert MapSeq(a, TimeFn()) == MapSeq(b, TimeFn());
    PermutedJoin(MapSeq(a, TimeFn()), MapSeq(ra, TimeFn()), MapSeq(rb, TimeFn()));
    TimelineIsChronological(a, ra);
    TimelineIsChronological(b, rb);
    assert SortedBy(MapSeq(ra, TimeFn()), AtMostInt()) && SortedBy(MapSeq(rb, TimeFn()), AtMostInt());
    SortingUnique(MapSeq(ra, TimeFn()), MapSeq(rb, TimeFn()), AtMostInt());
    assert |ra| == |MapSeq(ra, TimeFn())| && |rb| == |MapSeq(rb, TimeFn())|;
    forall k | 0 <= k < |ra| ensures ra[k].timestamp == rb[k].timestamp {
      assert MapSeq(ra, TimeFn())[k] == MapSeq(rb, TimeFn())[k];
    }
  }

  lemma PermutedJoin<T>(s: seq<T>, a: seq<T>, b: seq<T>)
    requires Permuted(s, a) && Permuted(s, b)
    ensures Permuted(a, b)
  {
  }

  lemma SortedAlike(a: seq<Observation>, b: seq<Observation>, ra: seq<Observation>, rb: seq<Observation>)
    requires SamePhases(a, b, 0) && NoTwoAtOnce(a) && IsTimeline(a, ra) && IsTimeline(b, rb)
    ensures SamePhases(ra, rb, 0)
  {
    hide Permuted, SortedBy, SameReading;
    SameTimes(a, b, ra, rb);
    SameElements(a, ra);
    SameElements(b, rb);
    forall k | 0 <= k < |ra| ensures SamePhase(ra[k], rb[k], 0) {
      assert ra[k] in a && rb[k] in b;
      var i :| 0 <= i < |a| && a[i] == ra[k];
      var j :| 0 <= j < |b| && b[j] == rb[k];
      assert SamePhase(a[j], b[j], 0);
      assert i == j;
    }
  }

  lemma SameStressed(a: seq<Observation>, b: seq<Observation>, slack: nat)
    requires SamePhases(a, b, slack)
    ensures Stressed(a) <==> Stressed(b)
  {
    hide SameReading;
    forall i | 0 <= i < |a| ensures a[i] in a && b[i] in b && SamePhase(a[i], b[i], slack) {}
  }

  lemma {:induction false} SamePostStress(a: seq<Observation>, b: seq<Observation>, slack: nat)
    requires SamePhases(a, b, slack)
    ensures SamePhases(PostStress(a), PostStress(b), slack)
  {
    hide Stressed, SameReading;
    if a != [] {
      SameStressed(a[..|a| - 1], b[..|b| - 1], slack);
      SamePostStress(a[..|a| - 1], b[..|b| - 1], slack);
      assert SamePhase(a[|a| - 1], b[|b| - 1], slack);
    }
  }

  lemma {:induction false} SameFirstCalmOf(a: seq<Observation>, b: seq<Observation>, slack: nat, policy: SafetyPolicy)
    requires SamePhases(a, b, slack)
    ensures FirstCalm(a, Within(policy)) == FirstCalm(b, Within(policy))
  {
    if a != [] {
      assert SamePhase(a[0], b[0], slack);
      assert IsSlaBreached(a[0], policy) == IsSlaBreached(b[0], policy);
      SameFirstCalmOf(a[1..], b[1..], slack, policy);
    }
  }

  lemma SameRecovery(a: seq<Observation>, b: seq<Observation>, slack: nat, policy: SafetyPolicy)
    requires SamePhases(a, b, slack)
    ensures -2 * slack <= RecoveryNanos(a, Within(policy)) - RecoveryNanos(b, Within(policy)) <= 2 * slack
  {
    hide SameReading;
    SameFirstCalmOf(a, b, slack, policy);
    assert forall i :: 0 <= i < |a| ==> SamePhase(a[i], b[i], slack);
  }

  /** Readings that are alike one by one recover alike, in whatever order they were saved. */
  lemma AlikeRecoverAlike(a: seq<Observation>, b: seq<Observation>, ra: seq<Observation>, rb: seq<Observation>,
                          policy: SafetyPolicy)
    requires AllAlike(a, b) && NoTwoAtOnce(a) && IsTimeline(a, ra) && IsTimeline(b, rb)
    ensures RecoverySeconds(ra, policy) == RecoverySeconds(rb, policy)
  {
    hide AllAlike, NoTwoAtOnce, IsTimeline, SamePhases, Seconds, PostStress, RecoveryNanos;
    CountedAlike(a, b);
    CountedApart(a);
    CountedTimeline(a, ra);
    CountedTimeline(b, rb);
    SortedAlike(Counted(a), Counted(b), Counted(ra), Counted(rb));
    SamePostStress(Counted(ra), Counted(rb), 0);
    PostStressCounted(ra);
    PostStressCounted(rb);
    SameRecovery(PostStress(ra), PostStress(rb), 0, policy);
  }

  lemma SturdyIsAlike(o: Observation)
    requires Sturdy(o)
    ensures Alike(o, Kept(o))
  {
    RoundOfInt(Round(o.loadRate));
    MicrosecondIsNearest(o.timestamp);
  }

  /** What is loaded and then sorted again is a timeline of what was stored. */
  lemma LoadedTimeline(rows: seq<Row>, experimentId: string, loaded: seq<Observation>, ord: seq<Observation>)
    requires IsQueryResult(rows, experimentId, loaded) && IsTimeline(loaded, ord)
    ensures IsTimeline(Saved(rows, experimentId), ord)
  {
    hide IsQueryResult, Saved;
    QueryRearranges(rows, experimentId, loaded);
  }

  /** Recovery survives storage too, when times are set and distinct and every reading is sturdy. */
  lemma StorageKeepsRecovery(obs: seq<Observation>, nows: seq<int>, rows: seq<Row>, experimentId: string,
                             loaded: seq<Observation>, ord: seq<Observation>, ord': seq<Observation>,
                             policy: SafetyPolicy, before: CapacityResult, after: CapacityResult)
    requires |obs| == |nows| && Saved(rows, experimentId) == StoredAll(obs, nows)
    requires IsQueryResult(rows, experimentId, loaded)
    requires IsAnalysis(obs, ord, policy, before) && IsAnalysis(loaded, ord', policy, after)
    requires NoTwoAtOnce(obs) && forall o :: o in obs ==> o.timestamp != ZERO_TIME && Sturdy(o)
    ensures before.recoveryTimeSec == after.recoveryTimeSec
  {
    hide IsQueryResult, NoTwoAtOnce, Sturdy, Alike, Kept, RecoverySeconds, Saved, IsTimeline;
    hide IsMaximumTested, IsSustainable, IsBoundary, IsDegradation;
    forall i | 0 <= i < |obs| ensures Alike(obs[i], StoredAll(obs, nows)[i]) {
      assert obs[i] in obs;
      SturdyIsAlike(obs[i]);
    }
    SameCount(rows, experimentId, loaded);
    if obs != [] {
      LoadedTimeline(rows, experimentId, loaded, ord');
      AlikeRecoverAlike(obs, StoredAll(obs, nows), ord, ord', policy);
    }
  }

  lemma SameCount(rows: seq<Row>, experimentId: string, loaded: seq<Observation>)
    requires IsQueryResult(rows, experimentId, loaded)
    ensures |loaded| == |Saved(rows, experimentId)|
  {
    hide IsQueryResult, Saved;
    QueryRearranges(rows, experimentId, loaded);
    SameElements(Saved(rows, experimentId), loaded);
  }

  // ---------------------------------------------------------------- rounded times move recovery by a second at most

  function KeptFn(): Observation -> Observation {
    (o: Observation) => Kept(o)
  }

  lemma MicrosecondMonotone(t: int, u: int)
    requires t <= u
    ensures Microsecond(t) <= Microsecond(u)
  {
  }

  /** With no two readings at one time, there is only one timeline. */
  lemma TimelineUnique(obs: seq<Observation>, a: seq<Observation>, b: seq<Observation>)
    requires NoTwoAtOnce(obs) && IsTimeline(obs, a) && IsTimeline(obs, b)
    ensures a == b
  {
    hide Permuted;
    SameElements(obs, a);
    PermutedJoin(obs, a, b);
    forall x, y | x in a && y in a && ByTime()(x, y) && ByTime()(y, x) ensures x == y {
      var i :| 0 <= i < |obs| && obs[i] == x;
      var j :| 0 <= j < |obs| && obs[j] == y;
    }
    SortingUnique(a, b, ByTime());
  }

  /** No two readings are within a microsecond of each other. */
  ghost predicate Spaced(obs: seq<Observation>) {
    forall i, j :: 0 <= i < |obs| && 0 <= j < |obs|
      && obs[i].timestamp <= obs[j].timestamp <= obs[i].timestamp + 1000
      ==> i == j
  }

  /** Rounding spaced readings leaves their order alone. */
  lemma KeptOrder(obs: seq<Observation>, ord: seq<Observation>, ord': seq<Observation>)
    requires Spaced(obs) && IsTimeline(obs, ord) && IsTimeline(MapSeq(obs, KeptFn()), ord')
    ensures ord' == MapSeq(ord, KeptFn()) && Chronological(ord')
  {
    hide Permuted, Microsecond;
    var image := MapSeq(obs, KeptFn());
    forall i, j | 0 <= i < j < |image| ensures image[i].timestamp != image[j].timestamp {
      MicrosecondIsNearest(obs[i].timestamp);
      MicrosecondIsNearest(obs[j].timestamp);
    }
    MapPermuted(obs, ord, KeptFn());
    TimelineIsChronological(obs, ord);
    forall i, j | 0 <= i < j < |ord| ensures ByTime()(MapSeq(ord, KeptFn())[i], MapSeq(ord, KeptFn())[j]) {
      MicrosecondMonotone(ord[i].timestamp, ord[j].timestamp);
    }
    TimelineUnique(image, MapSeq(ord, KeptFn()), ord');
    TimelineIsChronological(image, ord');
  }

  lemma KeptPhases(ord: seq<Observation>)
    requires forall o :: o in ord ==> ClearOfZero(o)
    ensures SamePhases(ord, MapSeq(ord, KeptFn()), 500)
  {
    hide Microsecond;
    forall i | 0 <= i < |ord| ensures SamePhase(ord[i], MapSeq(ord, KeptFn())[i], 500) {
      assert ord[i] in ord;
      RoundOfInt(Round(ord[i].loadRate));
      MicrosecondIsNearest(ord[i].timestamp);
    }
  }

  lemma SecondsNear(a: int, b: int)
    requires 0 <= a && 0 <= b && -1000 <= a - b <= 1000
    ensures -1 <= Seconds(a) - Seconds(b) <= 1
  {
  }

  lemma NearTimelines(ord: seq<Observation>, ord': seq<Observation>, policy: SafetyPolicy)
    requires SamePhases(ord, ord', 500) && Chronological(ord) && Chronological(ord')
    ensures -1 <= RecoverySeconds(ord, policy) - RecoverySeconds(ord', policy) <= 1
  {
    hide SamePhases, Chronological, PostStress, RecoveryNanos, Seconds;
    var post, post' := PostStress(ord), PostStress(ord');
    SamePostStress(ord, ord', 500);
    SameRecovery(post, post', 500, policy);
    PostStressOrdered(ord);
    PostStressOrdered(ord');
    RecoveryInWindow(post, Within(policy));
    RecoveryInWindow(post', Within(policy));
    SecondsNear(RecoveryNanos(post, Within(policy)), RecoveryNanos(post', Within(policy)));
  }

  /** Readings stamped to the nanosecond lose their last digits to the column, but as long as they are set, more than a
      microsecond apart and clear of zero, recovery moves by at most one second. */
  lemma StorageMovesRecoveryByASecond(obs: seq<Observation>, nows: seq<int>, rows: seq<Row>, experimentId: string,
                                      loaded: seq<Observation>, ord: seq<Observation>, ord': seq<Observation>,
                                      policy: SafetyPolicy, before: CapacityResult, after: CapacityResult)
    requires |obs| == |nows| && Saved(rows, experimentId) == StoredAll(obs, nows)
    requires IsQueryResult(rows, experimentId, loaded)
    requires IsAnalysis(obs, ord, policy, before) && IsAnalysis(loaded, ord', policy, after)
    requires Spaced(obs) && forall o :: o in obs ==> o.timestamp != ZERO_TIME && ClearOfZero(o)
    ensures -1 <= before.recoveryTimeSec - after.recoveryTimeSec <= 1
  {
    hide IsQueryResult, Spaced, ClearOfZero, Kept, RecoverySeconds, Saved, IsTimeline;
    hide IsMaximumTested, IsSustainable, IsBoundary, IsDegradation;
    SameCount(rows, experimentId, loaded);
    if obs != [] {
      AllSet(obs, nows);
      LoadedTimeline(rows, experimentId, loaded, ord');
      KeptOrder(obs, ord, ord');
      TimelineElements(obs, ord);
      KeptPhases(ord);
      TimelineIsChronological(obs, ord);
      NearTimelines(ord, ord', policy);
    }
  }

  lemma AllSet(obs: seq<Observation>, nows: seq<int>)
    requires |obs| == |nows| && forall o :: o in obs ==> o.timestamp != ZERO_TIME
    ensures StoredAll(obs, nows) == MapSeq(obs, KeptFn())
  {
    hide Kept;
    forall i | 0 <= i < |obs| ensures StoredAll(obs, nows)[i] == MapSeq(obs, KeptFn())[i] {
      assert obs[i] in obs;
    }
  }

  lemma TimelineElements(obs: seq<Observation>, ord: seq<Observation>)
    requires IsTimeline(obs, ord)
    ensures forall o :: o in ord ==> o in obs
  {
    SameElements(obs, ord);
  }

  // ---------------------------------------------------------------- when rounding shows

  /** The rows of an experiment hold these readings, the i-th of them as the columns rounded it, and were loaded. */
  ghost predicate RoundedInPlace(obs: seq<Observation>, i: nat, rows: seq<Row>, loaded: seq<Observation>) {
    && i < |obs| && NoTwoAtOnce(obs) && IsTable(rows)
    && exists id :: Saved(rows, id) == obs[i := Kept(obs[i])] && IsQueryResult(rows, id, loaded)
  }

  /** Rounding this reading changes the recovery time of no run under no policy. */
  ghost predicate Harmless(o: Observation, sorted: seq<Observation> -> seq<Observation>) {
    forall obs, i: nat, rows, loaded, policy :: i < |obs| && obs[i] == o && RoundedInPlace(obs, i, rows, loaded) ==>
      RecoverySeconds(sorted(obs), policy) == RecoverySeconds(sorted(loaded), policy)
  }

  /** Another reading of the run, slower or faster than any limit set below as its errors and availability say. */
  function Other(t: int, rate: int, errors: real, availability: real): Observation {
    Observation(t, rate as real, 0.0, errors, availability, 0.0, 0.0)
  }

  /** A policy under which o is a breach, and the availability it takes not to be. */
  function Floor(o: Observation): real {
    if o.availability > 0.0 then o.availability + 1.0 else 1.0
  }

  /** A policy under which o is calm, and the error rate it takes not to be. */
  function Ceiling(o: Observation): real {
    if o.errorRate > 0.0 then o.errorRate else 1.0
  }

  lemma PhaseOfThree(s: seq<Observation>)
    requires |s| == 3
    ensures var late := s[0].loadRate > 0.0 || s[1].loadRate > 0.0;
      PostStress(s) == (if s[0].loadRate > 0.0 && s[1].loadRate == 0.0 then [s[1]] else [])
                     + (if late && s[2].loadRate == 0.0 then [s[2]] else [])
  {
    assert s[..2] == [s[0], s[1]] && s[..2][..1] == [s[0]] && s[..2][..1][..0] == [];
    assert PostStress([s[0]]) == [];
    assert s[0] in s[..2] && s[1] in s[..2] && s[0] in [s[0]];
  }

  lemma BreachThenCalm(s: seq<Observation>, policy: SafetyPolicy)
    requires |s| == 3 && s[0].loadRate > 0.0 && s[1].loadRate == 0.0 && s[2].loadRate == 0.0
    requires IsSlaBreached(s[1], policy) && !IsSlaBreached(s[2], policy)
    ensures RecoverySeconds(s, policy) == Seconds(s[2].timestamp - s[1].timestamp)
  {
    hide IsSlaBreached, Seconds, PostStress;
    PhaseOfThree(s);
    var post := [s[1], s[2]];
    assert PostStress(s) == post && post[1..] == [s[2]];
    assert FirstCalm(post, Within(policy)) == 1;
  }

  lemma LastAlone(s: seq<Observation>, policy: SafetyPolicy)
    requires |s| == 3 && s[2].loadRate == 0.0
    requires (s[0].loadRate > 0.0 && s[1].loadRate != 0.0) || (s[0].loadRate == 0.0 && s[1].loadRate > 0.0)
    ensures RecoverySeconds(s, policy) == 0
  {
    hide IsSlaBreached, PostStress;
    PhaseOfThree(s);
    assert PostStress(s) == [s[2]];
  }

  /** Three readings sorted: as they are, or with the first two exchanged. */
  lemma TimelineOfThree(s: seq<Observation>, r: seq<Observation>)
    requires |s| == 3 && (r == s || r == [s[1], s[0], s[2]])
    requires r[0].timestamp < r[1].timestamp < r[2].timestamp
    ensures IsTimeline(s, r) && NoTwoAtOnce(s)
  {
    if r != s {
      assert s == [s[0], s[1], s[2]];
    }
  }

  function RowOf(id: nat, o: Observation): Row {
    Row(id, "x", o.timestamp, Round(o.loadRate), o.p95LatencyMs, o.errorRate, o.availability, o.cpuUtilization,
        o.memoryUtilization)
  }

  predicate InColumns(o: Observation) {
    Round(o.loadRate) as real == o.loadRate && FitsInt(Round(o.loadRate))
  }

  /** The table into which three readings were saved in this order. */
  function Table(s: seq<Observation>): seq<Row>
    requires |s| == 3
  {
    [RowOf(1, s[0]), RowOf(2, s[1]), RowOf(3, s[2])]
  }

  lemma TableRows(s: seq<Observation>)
    requires |s| == 3
    ensures RowsOf(Table(s), "x") == Table(s)
  {
    var rows := Table(s);
    assert rows[..2] == [rows[0], rows[1]] && rows[..2][..1] == [rows[0]] && rows[..2][..1][..0] == [];
    assert RowsOf([rows[0]], "x") == [rows[0]];
  }

  lemma TableReadings(s: seq<Observation>)
    requires |s| == 3 && InColumns(s[0]) && InColumns(s[1]) && InColumns(s[2])
    ensures MapSeq(Table(s), LoadedFn()) == s
  {
  }

  lemma TableInOrder(s: seq<Observation>)
    requires |s| == 3 && s[0].timestamp <= s[1].timestamp <= s[2].timestamp
    ensures IsSorting(Table(s), Table(s), ByTimeThenId())
  {
  }

  /** Readings saved in the order of their times, ties included, are loaded in that order. */
  lemma LoadedAsSaved(s: seq<Observation>)
    requires |s| == 3 && InColumns(s[0]) && InColumns(s[1]) && InColumns(s[2])
    requires s[0].timestamp <= s[1].timestamp <= s[2].timestamp
    ensures IsTable(Table(s)) && Saved(Table(s), "x") == s && IsQueryResult(Table(s), "x", s)
  {
    hide RowsOf, MapSeq, IsSorting;
    TableRows(s);
    TableReadings(s);
    TableInOrder(s);
  }

  /** A run of three readings, saved in this order, whose recovery changes by what the columns make of the i-th. */
  lemma Shows(o: Observation, sorted: seq<Observation> -> seq<Observation>, s: seq<Observation>, i: nat,
              r: seq<Observation>, policy: SafetyPolicy)
    requires SortsByTime(sorted) && |s| == 3 && i < 3 && s[i] == o && FitsInt(Round(o.loadRate))
    requires forall j :: 0 <= j < 3 && j != i ==> InColumns(s[j])
    requires NoTwoAtOnce(s) && IsTimeline(s, r)
    requires var k := s[i := Kept(o)]; k[0].timestamp <= k[1].timestamp <= k[2].timestamp
    requires RecoverySeconds(r, policy) != RecoverySeconds(s[i := Kept(o)], policy)
    ensures !Harmless(o, sorted)
  {
    hide RecoverySeconds, NoTwoAtOnce, IsTimeline, IsQueryResult, IsTable, Saved;
    var k := s[i := Kept(o)];
    RoundOfInt(Round(o.loadRate));
    LoadedAsSaved(k);
    TimelineUnique(s, r, sorted(s));
    assert sorted(k) == k;
    assert RoundedInPlace(s, i, Table(k), k);
  }

  const SECOND: int := 1000000000

  lemma AlmostOneAndAHalf(d: int)
    requires 1 <= d <= 500
    ensures Seconds(3 * SECOND / 2 - d) == 1 && Seconds(3 * SECOND / 2) == 2 && Seconds(10 * SECOND) == 10
    ensures Seconds(2 * SECOND) == 2
  {
  }

  /** A rate near zero: a trickle of traffic at the end of a run becomes idle time, and recovery goes from 0 to 10 s. */
  lemma TrickleShows(o: Observation, sorted: seq<Observation> -> seq<Observation>)
    requires SortsByTime(sorted) && !ClearOfZero(o)
    ensures !Harmless(o, sorted)
  {
    hide Harmless, IsTimeline, RecoverySeconds, SortsByTime, NoTwoAtOnce;
    var m, f, policy := Microsecond(o.timestamp), Floor(o), SafetyPolicy(0.0, 0.0, Floor(o));
    MicrosecondIsNearest(o.timestamp);
    RoundOfInt(0);
    RoundOfInt(1);
    var s := [Other(m - SECOND, 1, 0.0, f), o, Other(m + 10 * SECOND, 0, 0.0, f)];
    TimelineOfThree(s, s);
    LastAlone(s, policy);
    BreachThenCalm(s[1 := Kept(o)], policy);
    AlmostOneAndAHalf(1);
    Shows(o, sorted, s, 1, s, policy);
  }

  /** An idle reading whose time is rounded: a wait of almost 1.5 s becomes one of 1.5 s, and 1 s becomes 2 s. */
  lemma IdleShiftShows(o: Observation, sorted: seq<Observation> -> seq<Observation>)
    requires SortsByTime(sorted) && o.loadRate == 0.0 && !WholeMicrosecond(o.timestamp)
    ensures !Harmless(o, sorted)
  {
    hide Harmless, IsTimeline, RecoverySeconds, Seconds, SortsByTime, NoTwoAtOnce;
    var t, m := o.timestamp, Microsecond(o.timestamp);
    MicrosecondIsNearest(t);
    RoundOfInt(0);
    RoundOfInt(1);
    if m < t {
      var f, policy := Floor(o), SafetyPolicy(0.0, 0.0, Floor(o));
      var s := [Other(m - SECOND, 1, 0.0, f), o, Other(m + 3 * SECOND / 2, 0, 0.0, f)];
      TimelineOfThree(s, s);
      BreachThenCalm(s, policy);
      BreachThenCalm(s[1 := Kept(o)], policy);
      AlmostOneAndAHalf(t - m);
      Shows(o, sorted, s, 1, s, policy);
    } else {
      var c, policy := Ceiling(o), SafetyPolicy(0.0, Ceiling(o), 0.0);
      var s := [Other(m - 2 * SECOND, 1, 0.0, 0.0), Other(m - 3 * SECOND / 2, 0, c + 1.0, 0.0), o];
      TimelineOfThree(s, s);
      BreachThenCalm(s, policy);
      BreachThenCalm(s[2 := Kept(o)], policy);
      AlmostOneAndAHalf(m - t);
      Shows(o, sorted, s, 2, s, policy);
    }
  }

  /** A reading under load whose time is rounded onto that of an idle one saved out of order changes places with it: the
      query breaks the tie by the order of saving.  The post-stress phase begins two seconds sooner or later. */
  lemma LoadShiftShows(o: Observation, sorted: seq<Observation> -> seq<Observation>)
    requires SortsByTime(sorted) && o.loadRate >= 0.5 && !WholeMicrosecond(o.timestamp)
    requires FitsInt(Round(o.loadRate))
    ensures !Harmless(o, sorted)
  {
    hide Harmless, IsTimeline, RecoverySeconds, Seconds, SortsByTime, NoTwoAtOnce;
    var t, m, policy := o.timestamp, Microsecond(o.timestamp), SafetyPolicy(0.0, 0.0, 1.0);
    MicrosecondIsNearest(t);
    RoundOfInt(0);
    var idle, calm := Other(m, 0, 0.0, 0.0), Other(m + 2 * SECOND, 0, 0.0, 1.0);
    AlmostOneAndAHalf(1);
    if m < t {
      var s := [o, idle, calm];
      TimelineOfThree(s, [idle, o, calm]);
      LastAlone([idle, o, calm], policy);
      BreachThenCalm(s[0 := Kept(o)], policy);
      Shows(o, sorted, s, 0, [idle, o, calm], policy);
    } else {
      var s := [idle, o, calm];
      TimelineOfThree(s, [o, idle, calm]);
      BreachThenCalm([o, idle, calm], policy);
      LastAlone(s[1 := Kept(o)], policy);
      Shows(o, sorted, s, 1, [o, idle, calm], policy);
    }
  }

  /** Rounding a reading its columns can take leaves the recovery time of every run alone exactly when the reading is
      sturdy, whichever way equal times are sorted. */
  lemma HarmlessExactlyWhenSturdy(o: Observation, sorted: seq<Observation> -> seq<Observation>)
    requires SortsByTime(sorted) && FitsInt(Round(o.loadRate))
    ensures Harmless(o, sorted) <==> Sturdy(o)
  {
    hide RecoverySeconds, IsTimeline, Kept, RoundedInPlace;
    if Sturdy(o) {
      forall obs, i: nat, rows, loaded, policy | i < |obs| && obs[i] == o && RoundedInPlace(obs, i, rows, loaded)
        ensures RecoverySeconds(sorted(obs), policy) == RecoverySeconds(sorted(loaded), policy)
      {
        SturdyIsHarmless(o, sorted, obs, i, rows, loaded, policy);
      }
    } else if !ClearOfZero(o) {
      TrickleShows(o, sorted);
    } else if o.loadRate == 0.0 {
      IdleShiftShows(o, sorted);
    } else {
      LoadShiftShows(o, sorted);
    }
  }

  lemma SturdyIsHarmless(o: Observation, sorted: seq<Observation> -> seq<Observation>, obs: seq<Observation>, i: nat,
                         rows: seq<Row>, loaded: seq<Observation>, policy: SafetyPolicy)
    requires SortsByTime(sorted) && Sturdy(o) && RoundedInPlace(obs, i, rows, loaded) && obs[i] == o
    ensures RecoverySeconds(sorted(obs), policy) == RecoverySeconds(sorted(loaded), policy)
  {
    hide RecoverySeconds, IsTimeline, Kept, IsQueryResult, Saved, NoTwoAtOnce, IsTable, Sturdy, Alike;
    var id :| Saved(rows, id) == obs[i := Kept(obs[i])] && IsQueryResult(rows, id, loaded);
    SturdyIsAlike(o);
    AlikeItself(obs, i);
    LoadedTimeline(rows, id, loaded, sorted(loaded));
    AlikeRecoverAlike(obs, obs[i := Kept(o)], sorted(obs), sorted(loaded), policy);
  }

  lemma AlikeItself(obs: seq<Observation>, i: nat)
    requires i < |obs| && Alike(obs[i], Kept(obs[i]))
    ensures AllAlike(obs, obs[i := Kept(obs[i])])
  {
    hide Kept;
  }
}
