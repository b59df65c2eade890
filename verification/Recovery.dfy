/** internal/capacity/analyzer.go and metrics.go: the two recovery calculators, and why they agree. */
module Recovery {
  import opened CapacityModel
  import opened Rounding
  import opened Sorting

  // ---------------------------------------------------------------- chronological order

  function ByTime(): (Observation, Observation) -> bool {
    (a: Observation, b: Observation) => a.timestamp <= b.timestamp
  }

  lemma ByTimeIsPreorder()
    ensures TotalPreorder(ByTime())
  {
  }

  ghost predicate Chronological(obs: seq<Observation>) {
    forall i, j :: 0 <= i < j < |obs| ==> obs[i].timestamp <= obs[j].timestamp
  }

  /** ord is obs in some order sort.Slice may produce. */
  ghost predicate IsTimeline(obs: seq<Observation>, ord: seq<Observation>) {
    IsSorting(obs, ord, ByTime())
  }

  /** What sort.Slice computes for this comparison: a function of the slice, since its shuffle is seeded by the length,
      that leaves a slice in order as it is.  Which order it gives equal timestamps otherwise is left open. */
  ghost predicate SortsByTime(sorted: seq<Observation> -> seq<Observation>) {
    && (forall obs :: IsTimeline(obs, sorted(obs)))
    && (forall obs :: Chronological(obs) ==> sorted(obs) == obs)
  }

  /** There is such a function: insertion sort is one. */
  lemma SomeSort()
    ensures SortsByTime((obs: seq<Observation>) => InsertionSort(obs, ByTime()))
  {
    ByTimeIsPreorder();
    forall obs ensures IsTimeline(obs, InsertionSort(obs, ByTime())) {
      InsertionSortSorts(obs, ByTime());
    }
    forall obs | Chronological(obs) ensures InsertionSort(obs, ByTime()) == obs {
      InsertionSortKeeps(obs);
    }
  }

  lemma {:induction false} InsertionSortKeeps(obs: seq<Observation>)
    requires Chronological(obs)
    ensures InsertionSort(obs, ByTime()) == obs
  {
    if obs != [] {
      InsertionSortKeeps(obs[1..]);
      assert obs == [obs[0]] + obs[1..];
      assert |obs| > 1 ==> ByTime()(obs[0], obs[1..][0]);
    }
  }

  lemma TimelineIsChronological(obs: seq<Observation>, ord: seq<Observation>)
    requires IsTimeline(obs, ord)
    ensures Chronological(ord)
  {
    forall i, j | 0 <= i < j < |ord| ensures ord[i].timestamp <= ord[j].timestamp {
      assert ByTime()(ord[i], ord[j]);
    }
  }

  // ---------------------------------------------------------------- post-stress phase

  predicate Stressed(obs: seq<Observation>) {
    exists o :: o in obs && o.loadRate > 0.0
  }

  /** The zero-load observations that follow some load, in order. */
  function PostStress(obs: seq<Observation>): seq<Observation> {
    if obs == [] then []
    else
      var init, last := obs[..|obs| - 1], obs[|obs| - 1];
      PostStress(init) + (if Stressed(init) && last.loadRate == 0.0 then [last] else [])
  }

  lemma {:induction false} PostStressOrdered(obs: seq<Observation>)
    requires Chronological(obs)
    ensures Chronological(PostStress(obs))
    ensures forall o :: o in PostStress(obs) ==> o in obs
  {
    if obs != [] {
      var init, post := obs[..|obs| - 1], PostStress(obs[..|obs| - 1]);
      PostStressOrdered(init);
      forall i | 0 <= i < |post| ensures post[i].timestamp <= obs[|obs| - 1].timestamp {
        assert post[i] in init;
      }
    }
  }

  method SplitPostStress(obs: seq<Observation>) returns (foundStress: bool, post: seq<Observation>)
    ensures foundStress == Stressed(obs) && post == PostStress(obs)
  {
    foundStress, post := false, [];
    for i := 0 to |obs|
      invariant foundStress == Stressed(obs[..i]) && post == PostStress(obs[..i])
    {
      var o := obs[i];
      assert obs[..i + 1][..i] == obs[..i] && obs[..i + 1] == obs[..i] + [o];
      if o.loadRate > 0.0 {
        foundStress := true;
        assert o in obs[..i + 1];
      } else if foundStress && o.loadRate == 0.0 {
        post := post + [o];
      }
    }
    assert obs[..|obs|] == obs;
  }

  // ---------------------------------------------------------------- recovery time

  /** Index of the first calm observation, or the length when none is calm. */
  function FirstCalm(post: seq<Observation>, calm: Observation -> bool): (k: nat)
    ensures k <= |post| && (k < |post| ==> calm(post[k]))
    ensures forall j :: 0 <= j < k ==> !calm(post[j])
  {
    if post == [] || calm(post[0]) then 0 else 1 + FirstCalm(post[1..], calm)
  }

  /** Nanoseconds from the start of the phase to its first calm moment, or to its end. */
  function RecoveryNanos(post: seq<Observation>, calm: Observation -> bool): int {
    if post == [] then 0
    else
      var k := FirstCalm(post, calm);
      post[if k < |post| then k else |post| - 1].timestamp - post[0].timestamp
  }

  function Seconds(nanos: int): int {
    Round(nanos as real / 1000000000.0)
  }

  lemma SecondsMonotone(a: int, b: int)
    requires a <= b
    ensures Seconds(a) <= Seconds(b)
  {
    assert a as real / 1000000000.0 <= b as real / 1000000000.0;
    RoundMonotone(a as real / 1000000000.0, b as real / 1000000000.0);
  }

  function Window(post: seq<Observation>): int {
    if post == [] then 0 else post[|post| - 1].timestamp - post[0].timestamp
  }

  function Within(policy: SafetyPolicy): Observation -> bool {
    (o: Observation) => !IsSlaBreached(o, policy)
  }

  function RecoverySeconds(ord: seq<Observation>, policy: SafetyPolicy): int {
    Seconds(RecoveryNanos(PostStress(ord), Within(policy)))
  }

  /** calculateRecoveryTime, on observations already in time order. */
  method CalculateRecoveryTime(observations: seq<Observation>, policy: SafetyPolicy) returns (seconds: int)
    requires Chronological(observations)
    ensures seconds == RecoverySeconds(observations, policy)
  {
    var _, zeroLoad := SplitPostStress(observations);
    PostStressOrdered(observations);
    if |zeroLoad| == 0 {
      return 0;
    }
    var startTime := zeroLoad[0].timestamp;
    ghost var first := FirstCalm(zeroLoad, Within(policy));
    for i := 0 to |zeroLoad|
      invariant i <= first
    {
      var o := zeroLoad[i];
      if !IsSlaBreached(o, policy) {
        assert Within(policy)(o) && first == i;
        var diff := o.timestamp - startTime;
        if diff > 0 {
          return Seconds(diff);
        }
        return 0;
      }
      assert !Within(policy)(o);
    }
    var lastTime := zeroLoad[|zeroLoad| - 1].timestamp;
    return Seconds(lastTime - startTime);
  }

  /** Recovery never takes less than nothing nor longer than the phase lasted. */
  lemma RecoveryInWindow(post: seq<Observation>, calm: Observation -> bool)
    requires Chronological(post)
    ensures 0 <= RecoveryNanos(post, calm) <= Window(post)
    ensures 0 <= Seconds(RecoveryNanos(post, calm)) <= Seconds(Window(post))
  {
    if post != [] {
      var k := FirstCalm(post, calm);
      var i := if k < |post| then k else |post| - 1;
      assert i > 0 ==> post[0].timestamp <= post[i].timestamp;
      assert i < |post| - 1 ==> post[i].timestamp <= post[|post| - 1].timestamp;
    }
    SecondsMonotone(0, RecoveryNanos(post, calm));
    SecondsMonotone(RecoveryNanos(post, calm), Window(post));
  }

  lemma CalmerRecoversSooner(post: seq<Observation>, calmer: Observation -> bool, calm: Observation -> bool)
    requires Chronological(post)
    requires forall o :: calm(o) ==> calmer(o)
    ensures RecoveryNanos(post, calmer) <= RecoveryNanos(post, calm)
  {
    var k, n := FirstCalm(post, calmer), FirstCalm(post, calm);
    assert k <= n;
  }

  /** A weaker policy never lengthens recovery. */
  lemma WeakerRecoversSooner(ord: seq<Observation>, weak: SafetyPolicy, strict: SafetyPolicy)
    requires Chronological(ord) && Weaker(weak, strict)
    ensures RecoverySeconds(ord, weak) <= RecoverySeconds(ord, strict)
  {
    PostStressOrdered(ord);
    CalmerRecoversSooner(PostStress(ord), Within(weak), Within(strict));
    SecondsMonotone(RecoveryNanos(PostStress(ord), Within(weak)), RecoveryNanos(PostStress(ord), Within(strict)));
  }
}
