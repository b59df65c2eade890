/** internal/graph/scoring.go: node metrics, the weighted score and the ranked output.

    Human-readable reasons are left out; frequencies and scores are exact reals. */
module Scoring {
  import opened Paths
  import opened DependencyGraphs
  import opened Reachability
  import opened Depths
  import opened Spof
  import opened Rounding
  import opened Sorting

  datatype CriticalityWeights = CriticalityWeights(inDegree: real, outDegree: real, callFreq: real, depth: real,
                                                   spof: real)

  datatype NodeMetrics = NodeMetrics(serviceName: string, inDegree: nat, outDegree: nat, callFrequency: real,
                                     depth: nat, isSPOF: bool)

  datatype ServiceScore = ServiceScore(serviceName: string, score: real)

  // ---------------------------------------------------------------- metrics

  function Callers(edges: seq<DependencyEdge>, n: string): set<string> {
    set e | e in edges && e.to == n :: e.from
  }

  function Callees(edges: seq<DependencyEdge>, n: string): set<string> {
    set e | e in edges && e.from == n :: e.to
  }

  /** An edge without a rate counts its calls instead. */
  function EffectiveFrequency(e: DependencyEdge): real {
    if e.frequency == 0.0 && e.callCount > 0 then e.callCount as real else e.frequency
  }

  function Inflow(edges: seq<DependencyEdge>, n: string): real {
    if edges == [] then 0.0
    else
      var last := edges[|edges| - 1];
      Inflow(edges[..|edges| - 1], n) + (if last.to == n then EffectiveFrequency(last) else 0.0)
  }

  ghost predicate IsBaseMetrics(edges: seq<DependencyEdge>, n: string, m: NodeMetrics) {
    && m.serviceName == n
    && m.inDegree == |Callers(edges, n)|
    && m.outDegree == |Callees(edges, n)|
    && m.callFrequency == Inflow(edges, n)
  }

  ghost predicate TallyStepped(edges: seq<DependencyEdge>, e: DependencyEdge, n: string) {
    && Callers(edges + [e], n) == Callers(edges, n) + (if e.to == n then {e.from} else {})
    && Callees(edges + [e], n) == Callees(edges, n) + (if e.from == n then {e.to} else {})
    && Inflow(edges + [e], n) == Inflow(edges, n) + (if e.to == n then EffectiveFrequency(e) else 0.0)
  }

  lemma TallyStep(edges: seq<DependencyEdge>, e: DependencyEdge, n: string)
    ensures TallyStepped(edges, e, n)
  {
    assert (edges + [e])[..|edges|] == edges;
    assert forall x :: x in edges + [e] <==> x in edges || x == e;
  }

  lemma TallyNothing(n: string)
    ensures Callers([], n) == Callees([], n) == {} && Inflow([], n) == 0.0
  {
  }

  /** One pass over the edges fills the caller and callee sets and the inflow of every node. */
  method Tally(nodes: set<string>, edges: seq<DependencyEdge>)
    returns (callers: map<string, set<string>>, callees: map<string, set<string>>, freq: map<string, real>)
    ensures callers.Keys == callees.Keys == freq.Keys == nodes
    ensures forall n :: n in nodes ==> callers[n] == Callers(edges, n)
    ensures forall n :: n in nodes ==> callees[n] == Callees(edges, n)
    ensures forall n :: n in nodes ==> freq[n] == Inflow(edges, n)
  {
    hide Callers, Callees, Inflow;
    callers := map n | n in nodes :: {};
    callees := map n | n in nodes :: {};
    freq := map n | n in nodes :: 0.0;
    forall n | n in nodes ensures Callers([], n) == Callees([], n) == {} && Inflow([], n) == 0.0 {
      TallyNothing(n);
    }
    assert edges[..0] == [];
    for i := 0 to |edges|
      invariant callers.Keys == callees.Keys == freq.Keys == nodes
      invariant forall n :: n in nodes ==> callers[n] == Callers(edges[..i], n)
      invariant forall n :: n in nodes ==> callees[n] == Callees(edges[..i], n)
      invariant forall n :: n in nodes ==> freq[n] == Inflow(edges[..i], n)
    {
      var edge := edges[i];
      assert edges[..i + 1] == edges[..i] + [edge];
      if edge.to in callers {
        callers := callers[edge.to := callers[edge.to] + {edge.from}];
        freq := freq[edge.to := freq[edge.to] + EffectiveFrequency(edge)];
      }
      if edge.from in callees {
        callees := callees[edge.from := callees[edge.from] + {edge.to}];
      }
      forall n | n in nodes
        ensures callers[n] == Callers(edges[..i + 1], n)
        ensures callees[n] == Callees(edges[..i + 1], n)
        ensures freq[n] == Inflow(edges[..i + 1], n)
      {
        TallyStep(edges[..i], edge, n);
      }
    }
    assert edges[..|edges|] == edges;
  }

  /** collectNodeMetrics; depth and SPOF flag are filled in by the caller. */
  method CollectNodeMetrics(g: DependencyGraph) returns (metrics: map<string, NodeMetrics>)
    ensures metrics.Keys == g.nodes.Keys
    ensures forall n :: n in metrics ==> IsBaseMetrics(g.edges, n, metrics[n])
  {
    var callers, callees, freq := Tally(g.nodes.Keys, g.edges);
    metrics := map n | n in g.nodes.Keys :: NodeMetrics(n, |callers[n]|, |callees[n]|, freq[n], 0, false);
  }

  ghost predicate IsNodeMetrics(nodes: set<string>, edges: seq<DependencyEdge>, n: string, m: NodeMetrics) {
    var arcs, ingress := Arcs(edges), IngressRoots(nodes, edges);
    && IsBaseMetrics(edges, n, m)
    && (if Reaches(arcs, ingress, {}, n) then IsDistance(arcs, ingress, n, m.depth) else m.depth == 0)
    && (m.isSPOF <==> |nodes| > 2 && exists v :: Isolates(arcs, SearchRoots(nodes, edges), {""}, n, v))
  }

  ghost predicate IsMetricsOf(nodes: set<string>, edges: seq<DependencyEdge>, metrics: map<string, NodeMetrics>) {
    metrics.Keys == nodes && forall n :: n in nodes ==> IsNodeMetrics(nodes, edges, n, metrics[n])
  }

  lemma MetricsComplete(nodes: set<string>, edges: seq<DependencyEdge>, n: string, base: NodeMetrics,
                        depths: map<string, nat>, isSPOF: map<string, bool>, isolatedMap: map<string, seq<string>>)
    requires n in nodes && IsBaseMetrics(edges, n, base)
    requires AreDepths(nodes, edges, depths) && AreSpofs(nodes, edges, isSPOF, isolatedMap)
    ensures IsNodeMetrics(nodes, edges, n, base.(depth := depths[n], isSPOF := isSPOF[n]))
  {
    hide Isolates, Reaches, IsDistance;
    assert Judged(nodes, edges, n, isSPOF[n], isolatedMap[n]);
    if isSPOF[n] {
      assert isolatedMap[n][0] in isolatedMap[n];
    }
  }

  lemma MetricsUnique(nodes: set<string>, edges: seq<DependencyEdge>, n: string, a: NodeMetrics, b: NodeMetrics)
    requires IsNodeMetrics(nodes, edges, n, a) && IsNodeMetrics(nodes, edges, n, b)
    ensures a == b
  {
    if Reaches(Arcs(edges), IngressRoots(nodes, edges), {}, n) {
      DistanceUnique(Arcs(edges), IngressRoots(nodes, edges), n, a.depth, b.depth);
    }
  }

  // ---------------------------------------------------------------- score

  datatype Maxima = Maxima(inDegree: nat, outDegree: nat, callFreq: real, depth: nat)

  ghost predicate Bounds(metrics: map<string, NodeMetrics>, mx: Maxima) {
    && mx.callFreq >= 0.0
    && forall n :: n in metrics ==>
      && metrics[n].inDegree <= mx.inDegree && metrics[n].outDegree <= mx.outDegree
      && metrics[n].callFrequency <= mx.callFreq && metrics[n].depth <= mx.depth
  }

  /** Each maximum is attained, or is the 0 it started from. */
  ghost predicate Attained(metrics: map<string, NodeMetrics>, mx: Maxima) {
    && (mx.inDegree == 0 || exists n :: n in metrics && metrics[n].inDegree == mx.inDegree)
    && (mx.outDegree == 0 || exists n :: n in metrics && metrics[n].outDegree == mx.outDegree)
    && (mx.callFreq == 0.0 || exists n :: n in metrics && metrics[n].callFrequency == mx.callFreq)
    && (mx.depth == 0 || exists n :: n in metrics && metrics[n].depth == mx.depth)
  }

  lemma MaximaUnique(metrics: map<string, NodeMetrics>, a: Maxima, b: Maxima)
    requires Bounds(metrics, a) && Attained(metrics, a) && Bounds(metrics, b) && Attained(metrics, b)
    ensures a == b
  {
  }

  function Normalised(x: real, max: real): real {
    if max > 0.0 then x / max else 0.0
  }

  function Weighted(w: real, x: real): real {
    w * x
  }

  function RawScore(m: NodeMetrics, mx: Maxima, w: CriticalityWeights): real {
    Weighted(w.inDegree, Normalised(m.inDegree as real, mx.inDegree as real))
    + Weighted(w.outDegree, Normalised(m.outDegree as real, mx.outDegree as real))
    + Weighted(w.callFreq, Normalised(m.callFrequency, mx.callFreq))
    + Weighted(w.depth, Normalised(m.depth as real, mx.depth as real))
    + Weighted(w.spof, if m.isSPOF then 1.0 else 0.0)
  }

  function RoundToHundredths(x: real): real {
    Round(x * 100.0) as real / 100.0
  }

  function Clamp(x: real): real {
    if x < 0.0 then 0.0 else if x > 1.0 then 1.0 else x
  }

  function Score(m: NodeMetrics, mx: Maxima, w: CriticalityWeights): real {
    RoundToHundredths(Clamp(RawScore(m, mx, w)))
  }

  ghost predicate ConvexWeights(w: CriticalityWeights) {
    && w.inDegree >= 0.0 && w.outDegree >= 0.0 && w.callFreq >= 0.0 && w.depth >= 0.0 && w.spof >= 0.0
    && w.inDegree + w.outDegree + w.callFreq + w.depth + w.spof == 1.0
  }

  lemma NormalisedInUnit(x: real, max: real)
    requires 0.0 <= x <= max
    ensures 0.0 <= Normalised(x, max) <= 1.0
  {
    if max > 0.0 {
      RatioInUnit(x, max);
    }
  }

  lemma WeightedInUnit(w: real, x: real)
    requires w >= 0.0 && 0.0 <= x <= 1.0
    ensures 0.0 <= Weighted(w, x) <= w
  {
    assert w * (1.0 - x) >= 0.0;
  }

  /** For convex weights and non-negative traffic the raw score needs no clamping. */
  lemma RawScoreInUnit(metrics: map<string, NodeMetrics>, mx: Maxima, w: CriticalityWeights, n: string)
    requires n in metrics && Bounds(metrics, mx) && metrics[n].callFrequency >= 0.0
    requires ConvexWeights(w)
    ensures 0.0 <= RawScore(metrics[n], mx, w) <= 1.0
    ensures Clamp(RawScore(metrics[n], mx, w)) == RawScore(metrics[n], mx, w)
  {
    hide Normalised, Weighted;
    var m := metrics[n];
    var a, b := Normalised(m.inDegree as real, mx.inDegree as real),
        Normalised(m.outDegree as real, mx.outDegree as real);
    var c, d := Normalised(m.callFrequency, mx.callFreq), Normalised(m.depth as real, mx.depth as real);
    var e := if m.isSPOF then 1.0 else 0.0;
    NormalisedInUnit(m.inDegree as real, mx.inDegree as real);
    NormalisedInUnit(m.outDegree as real, mx.outDegree as real);
    NormalisedInUnit(m.callFrequency, mx.callFreq);
    NormalisedInUnit(m.depth as real, mx.depth as real);
    ConvexSum(w, a, b, c, d, e);
  }

  lemma ConvexSum(w: CriticalityWeights, a: real, b: real, c: real, d: real, e: real)
    requires ConvexWeights(w)
    requires 0.0 <= a <= 1.0 && 0.0 <= b <= 1.0 && 0.0 <= c <= 1.0 && 0.0 <= d <= 1.0 && 0.0 <= e <= 1.0
    ensures 0.0 <= Weighted(w.inDegree, a) + Weighted(w.outDegree, b) + Weighted(w.callFreq, c) + Weighted(w.depth, d)
        + Weighted(w.spof, e) <= 1.0
  {
    hide Weighted;
    WeightedInUnit(w.inDegree, a);
    WeightedInUnit(w.outDegree, b);
    WeightedInUnit(w.callFreq, c);
    WeightedInUnit(w.depth, d);
    WeightedInUnit(w.spof, e);
    SumWithin(w, Weighted(w.inDegree, a), Weighted(w.outDegree, b), Weighted(w.callFreq, c), Weighted(w.depth, d),
      Weighted(w.spof, e));
  }

  lemma SumWithin(w: CriticalityWeights, p: real, q: real, r: real, s: real, t: real)
    requires ConvexWeights(w)
    requires 0.0 <= p <= w.inDegree && 0.0 <= q <= w.outDegree && 0.0 <= r <= w.callFreq && 0.0 <= s <= w.depth
    requires 0.0 <= t <= w.spof
    ensures 0.0 <= p + q + r + s + t <= 1.0
  {
  }

  /** Rounding to two places cannot leave the unit interval, and moves a score by at most half a hundredth. */
  lemma RoundedInUnit(x: real)
    requires 0.0 <= x <= 1.0
    ensures 0.0 <= RoundToHundredths(x) <= 1.0
    ensures -0.005 <= RoundToHundredths(x) - x <= 0.005
  {
    RoundMonotone(0.0, x * 100.0);
    RoundMonotone(x * 100.0, 100.0);
    RoundOfInt(100);
    RoundIsNearest(x * 100.0);
  }

  lemma {:induction false} InflowNonNegative(edges: seq<DependencyEdge>, n: string)
    requires forall e :: e in edges ==> e.frequency >= 0.0
    ensures Inflow(edges, n) >= 0.0
  {
    if edges != [] {
      InflowNonNegative(edges[..|edges| - 1], n);
    }
  }

  // ---------------------------------------------------------------- order

  /** Go's order on strings: by first differing element, a proper prefix first. */
  predicate NameLess(a: string, b: string) {
    b != [] && (a == [] || a[0] < b[0] || (a[0] == b[0] && NameLess(a[1..], b[1..])))
  }

  lemma {:induction false} NameLessTotal(a: string, b: string)
    ensures (NameLess(a, b) && !NameLess(b, a) && a != b) || (NameLess(b, a) && !NameLess(a, b) && a != b)
         || (a == b && !NameLess(a, b))
  {
    if a != [] && b != [] {
      NameLessTotal(a[1..], b[1..]);
      assert a == [a[0]] + a[1..] && b == [b[0]] + b[1..];
    }
  }

  lemma {:induction false} NameLessTransitive(a: string, b: string, c: string)
    requires NameLess(a, b) && NameLess(b, c)
    ensures NameLess(a, c)
  {
    if a != [] && a[0] == b[0] && b[0] == c[0] {
      NameLessTransitive(a[1..], b[1..], c[1..]);
    }
  }

  /** The comparison handed to sort.Slice. */
  predicate Before(a: ServiceScore, b: ServiceScore) {
    if a.score != b.score then a.score > b.score else NameLess(a.serviceName, b.serviceName)
  }

  function NotAfter(): (ServiceScore, ServiceScore) -> bool {
    (a, b) => !Before(b, a)
  }

  lemma BeforeIsTotal(a: ServiceScore, b: ServiceScore)
    ensures !Before(a, b) && !Before(b, a) ==> a == b
    ensures !(Before(a, b) && Before(b, a))
  {
    NameLessTotal(a.serviceName, b.serviceName);
  }

  lemma NotAfterIsPreorder()
    ensures TotalPreorder(NotAfter())
  {
    var leq := NotAfter();
    forall x, y ensures leq(x, y) || leq(y, x) {
      BeforeIsTotal(x, y);
    }
    forall x, y, z | leq(x, y) && leq(y, z) ensures leq(x, z) {
      NameLessTotal(x.serviceName, y.serviceName);
      NameLessTotal(y.serviceName, z.serviceName);
      NameLessTotal(x.serviceName, z.serviceName);
      if NameLess(x.serviceName, y.serviceName) && NameLess(y.serviceName, z.serviceName) {
        NameLessTransitive(x.serviceName, y.serviceName, z.serviceName);
      }
    }
  }

  ghost predicate StrictlyOrdered(scores: seq<ServiceScore>) {
    forall i, j :: 0 <= i < j < |scores| ==> Before(scores[i], scores[j])
  }

  lemma SortedIsStrict(scores: seq<ServiceScore>)
    requires SortedBy(scores, NotAfter())
    requires forall i, j :: 0 <= i < j < |scores| ==> scores[i].serviceName != scores[j].serviceName
    ensures StrictlyOrdered(scores)
  {
    forall i, j | 0 <= i < j < |scores| ensures Before(scores[i], scores[j]) {
      BeforeIsTotal(scores[i], scores[j]);
      assert NotAfter()(scores[i], scores[j]);
    }
  }

  lemma {:induction false} StrictOrderUnique(a: seq<ServiceScore>, b: seq<ServiceScore>)
    requires StrictlyOrdered(a) && StrictlyOrdered(b)
    requires forall x :: x in a <==> x in b
    ensures a == b
  {
    assert (b == [] || b[0] in b) && (a == [] || a[0] in a);
    if a != [] {
      assert a[0] in b && b[0] in a;
      var i :| 0 <= i < |a| && a[i] == b[0];
      var j :| 0 <= j < |b| && b[j] == a[0];
      BeforeIsTotal(a[0], b[0]);
      assert a[0] == b[0];
      forall x ensures x in a[1..] <==> x in b[1..] {
        BeforeIsTotal(a[0], a[0]);
        assert x in a <==> x == a[0] || x in a[1..];
        assert x in b <==> x == b[0] || x in b[1..];
      }
      StrictOrderUnique(a[1..], b[1..]);
      assert a == [a[0]] + a[1..] && b == [b[0]] + b[1..];
    }
  }

  // ---------------------------------------------------------------- the ranking

  ghost predicate IsRankingFor(metrics: map<string, NodeMetrics>, mx: Maxima, w: CriticalityWeights,
                               scores: seq<ServiceScore>) {
    && Bounds(metrics, mx) && Attained(metrics, mx)
    && StrictlyOrdered(scores)
    && forall s :: s in scores <==> s.serviceName in metrics && s.score == Score(metrics[s.serviceName], mx, w)
  }

  /** Exactly one entry per service, with its score, strictly ordered. */
  ghost predicate IsRanking(nodes: set<string>, edges: seq<DependencyEdge>, w: CriticalityWeights,
                            scores: seq<ServiceScore>) {
    exists metrics, mx :: IsMetricsOf(nodes, edges, metrics) && IsRankingFor(metrics, mx, w, scores)
  }

  /** Whatever order the maps are walked in, the ranking is the same. */
  lemma RankingIsDetermined(nodes: set<string>, edges: seq<DependencyEdge>, w: CriticalityWeights, a: seq<ServiceScore>,
                            b: seq<ServiceScore>)
    requires IsRanking(nodes, edges, w, a) && IsRanking(nodes, edges, w, b)
    ensures a == b
  {
    hide IsNodeMetrics, Bounds, Attained, StrictlyOrdered, Score;
    var m, mx :| IsMetricsOf(nodes, edges, m) && IsRankingFor(m, mx, w, a);
    var m', mx' :| IsMetricsOf(nodes, edges, m') && IsRankingFor(m', mx', w, b);
    forall n | n in nodes ensures m[n] == m'[n] {
      MetricsUnique(nodes, edges, n, m[n], m'[n]);
    }
    assert m == m';
    MaximaUnique(m, mx, mx');
    StrictOrderUnique(a, b);
  }

  /** Every score of a ranking lies in [0,1] and is the unclamped weighted sum, rounded. */
  lemma RankingScores(nodes: set<string>, edges: seq<DependencyEdge>, w: CriticalityWeights, scores: seq<ServiceScore>)
    returns (metrics: map<string, NodeMetrics>, mx: Maxima)
    requires IsRanking(nodes, edges, w, scores)
    requires ConvexWeights(w) && forall e :: e in edges ==> e.frequency >= 0.0
    ensures IsMetricsOf(nodes, edges, metrics)
    ensures forall n :: n in nodes ==> ServiceScore(n, RoundToHundredths(RawScore(metrics[n], mx, w))) in scores
    ensures forall s :: s in scores ==> s.serviceName in nodes && 0.0 <= s.score <= 1.0
  {
    hide RawScore, IsDistance, Reaches, Isolates, RoundToHundredths;
    metrics, mx :| IsMetricsOf(nodes, edges, metrics) && IsRankingFor(metrics, mx, w, scores);
    forall n | n in nodes
      ensures 0.0 <= Score(metrics[n], mx, w) <= 1.0
      ensures Score(metrics[n], mx, w) == RoundToHundredths(RawScore(metrics[n], mx, w))
    {
      assert IsNodeMetrics(nodes, edges, n, metrics[n]);
      InflowNonNegative(edges, n);
      RawScoreInUnit(metrics, mx, w, n);
      RoundedInUnit(RawScore(metrics[n], mx, w));
    }
    forall n | n in nodes ensures ServiceScore(n, RoundToHundredths(RawScore(metrics[n], mx, w))) in scores {
      var s := ServiceScore(n, RoundToHundredths(RawScore(metrics[n], mx, w)));
      assert s.serviceName in metrics && s.score == Score(metrics[s.serviceName], mx, w);
    }
  }

  method Larger(a: nat, b: nat) returns (m: nat)
    ensures m >= a && m >= b && (m == a || m == b)
  {
    if a > b {
      m := a;
    } else {
      m := b;
    }
  }

  method FindMaxima(metrics: map<string, NodeMetrics>) returns (mx: Maxima)
    ensures Bounds(metrics, mx) && Attained(metrics, mx)
  {
    mx := Maxima(0, 0, 0.0, 0);
    ghost var done: map<string, NodeMetrics> := map[];
    var pending := metrics.Keys;
    while pending != {}
      invariant pending <= metrics.Keys && done == map n | n in metrics.Keys - pending :: metrics[n]
      invariant Bounds(done, mx) && Attained(done, mx)
    {
      var name :| name in pending;
      pending := pending - {name};
      var m := metrics[name];
      ghost var before, was := done, mx;
      done := done[name := m];
      var maxIn := Larger(m.inDegree, mx.inDegree);
      var maxOut := Larger(m.outDegree, mx.outDegree);
      var maxDepth := Larger(m.depth, mx.depth);
      mx := Maxima(maxIn, maxOut, if m.callFrequency > mx.callFreq then m.callFrequency else mx.callFreq, maxDepth);
      MaximaStep(before, was, name, m, mx);
      assert done == map n | n in metrics.Keys - pending :: metrics[n];
    }
    assert done == metrics;
  }

  lemma MaximaStep(before: map<string, NodeMetrics>, was: Maxima, name: string, m: NodeMetrics, mx: Maxima)
    requires name !in before && Bounds(before, was) && Attained(before, was)
    requires mx.inDegree >= was.inDegree && mx.inDegree >= m.inDegree
    requires (mx.inDegree == was.inDegree || mx.inDegree == m.inDegree)
    requires mx.outDegree >= was.outDegree && mx.outDegree >= m.outDegree
    requires (mx.outDegree == was.outDegree || mx.outDegree == m.outDegree)
    requires mx.callFreq >= was.callFreq && mx.callFreq >= m.callFrequency
    requires (mx.callFreq == was.callFreq || mx.callFreq == m.callFrequency)
    requires mx.depth >= was.depth && mx.depth >= m.depth && (mx.depth == was.depth || mx.depth == m.depth)
    ensures Bounds(before[name := m], mx) && Attained(before[name := m], mx)
  {
    var after := before[name := m];
    assert after[name] == m;
    assert forall n :: n in before ==> n in after && after[n] == before[n];
  }

  method ScoreAll(metrics: map<string, NodeMetrics>, mx: Maxima, w: CriticalityWeights)
    returns (scores: seq<ServiceScore>)
    ensures forall s :: s in scores <==> s.serviceName in metrics && s.score == Score(metrics[s.serviceName], mx, w)
    ensures forall i, j :: 0 <= i < j < |scores| ==> scores[i].serviceName != scores[j].serviceName
  {
    hide Score;
    scores := [];
    var pending := metrics.Keys;
    while pending != {}
      invariant pending <= metrics.Keys
      invariant forall s :: s in scores <==>
          s.serviceName in metrics.Keys - pending && s.score == Score(metrics[s.serviceName], mx, w)
      invariant forall i, j :: 0 <= i < j < |scores| ==> scores[i].serviceName != scores[j].serviceName
    {
      var name :| name in pending;
      assert forall i :: 0 <= i < |scores| ==> scores[i] in scores;
      pending := pending - {name};
      scores := scores + [ServiceScore(name, Score(metrics[name], mx, w))];
    }
  }

  ghost predicate DistinctNames(scores: seq<ServiceScore>) {
    forall i, j :: 0 <= i < j < |scores| ==> scores[i].serviceName != scores[j].serviceName
  }

  /** Rearranging keeps the names apart: all that matters is that a name determines its entry once. */
  lemma {:induction false} DistinctNamesPermuted(s: seq<ServiceScore>, r: seq<ServiceScore>)
    requires DistinctNames(s) && Permuted(s, r)
    ensures DistinctNames(r)
  {
    hide Permuted;
    if s == [] {
      SameElements(s, r);
    } else {
      SameElements(s, r);
      assert s[0] in r;
      var k :| 0 <= k < |r| && r[k] == s[0];
      var rest := r[..k] + r[k + 1..];
      DropCommon(s, r, k);
      DistinctNamesPermuted(s[1..], rest);
      SameElements(s[1..], rest);
      forall i | 0 <= i < |r| && i != k ensures r[i].serviceName != r[k].serviceName {
        assert r[i] == rest[if i < k then i else i - 1];
        assert r[i] in rest;
        assert r[i] in s[1..];
      }
      forall i, j | 0 <= i < j < |r| ensures r[i].serviceName != r[j].serviceName {
        if i != k && j != k {
          assert r[i] == rest[if i < k then i else i - 1];
          assert r[j] == rest[if j < k then j else j - 1];
        }
      }
    }
  }

  method Ranked(metrics: map<string, NodeMetrics>, mx: Maxima, w: CriticalityWeights)
    returns (scores: seq<ServiceScore>)
    requires Bounds(metrics, mx) && Attained(metrics, mx)
    ensures IsRankingFor(metrics, mx, w, scores)
  {
    hide Permuted, Score, Attained, Bounds;
    var unsorted := ScoreAll(metrics, mx, w);
    NotAfterIsPreorder();
    scores := Sort(unsorted, NotAfter());
    SameElements(unsorted, scores);
    DistinctNamesPermuted(unsorted, scores);
    SortedIsStrict(scores);
  }

  /** ScoreCriticalityWithWeights. */
  method ScoreCriticalityWithWeights(g: DependencyGraph?, w: CriticalityWeights) returns (scores: seq<ServiceScore>)
    ensures g == null ==> scores == []
    ensures g != null ==> IsRanking(g.nodes.Keys, g.edges, w, scores)
  {
    hide *;
    if g == null {
      return [];
    }
    if |g.nodes| == 0 {
      EmptyRanking(g.edges, w);
      assert g.nodes.Keys == {};
      return [];
    }
    var base := CollectNodeMetrics(g);
    var isSPOF, isolatedMap := IdentifySPOFs(g);
    var depths := ComputeDepths(g);
    KeysPresent(g.nodes.Keys, g.edges, depths, isSPOF, isolatedMap);
    var metrics := map n | n in base :: base[n].(depth := depths[n], isSPOF := isSPOF[n]);
    AllComplete(g.nodes.Keys, g.edges, base, depths, isSPOF, isolatedMap, metrics);
    var mx := FindMaxima(metrics);
    scores := Ranked(metrics, mx, w);
    RankingOf(g.nodes.Keys, g.edges, w, metrics, mx, scores);
  }

  lemma AllComplete(nodes: set<string>, edges: seq<DependencyEdge>, base: map<string, NodeMetrics>,
                    depths: map<string, nat>, isSPOF: map<string, bool>, isolatedMap: map<string, seq<string>>,
                    metrics: map<string, NodeMetrics>)
    requires base.Keys == nodes && forall n :: n in base ==> IsBaseMetrics(edges, n, base[n])
    requires AreDepths(nodes, edges, depths) && AreSpofs(nodes, edges, isSPOF, isolatedMap)
    requires nodes <= depths.Keys && nodes == isSPOF.Keys
    requires metrics == map n | n in base :: base[n].(depth := depths[n], isSPOF := isSPOF[n])
    ensures IsMetricsOf(nodes, edges, metrics)
  {
    hide IsNodeMetrics, IsBaseMetrics, AreDepths, AreSpofs;
    forall n | n in nodes ensures IsNodeMetrics(nodes, edges, n, metrics[n]) {
      MetricsComplete(nodes, edges, n, base[n], depths, isSPOF, isolatedMap);
    }
  }

  lemma RankingOf(nodes: set<string>, edges: seq<DependencyEdge>, w: CriticalityWeights,
                  metrics: map<string, NodeMetrics>, mx: Maxima, scores: seq<ServiceScore>)
    requires IsMetricsOf(nodes, edges, metrics) && IsRankingFor(metrics, mx, w, scores)
    ensures IsRanking(nodes, edges, w, scores)
  {
  }

  lemma KeysPresent(nodes: set<string>, edges: seq<DependencyEdge>, depths: map<string, nat>, isSPOF: map<string, bool>,
                    isolatedMap: map<string, seq<string>>)
    requires AreDepths(nodes, edges, depths) && AreSpofs(nodes, edges, isSPOF, isolatedMap)
    ensures nodes <= depths.Keys && nodes == isSPOF.Keys == isolatedMap.Keys
  {
  }

  lemma EmptyRanking(edges: seq<DependencyEdge>, w: CriticalityWeights)
    ensures IsRanking({}, edges, w, [])
  {
    assert IsMetricsOf({}, edges, map[]);
    assert IsRankingFor(map[], Maxima(0, 0, 0.0, 0), w, []);
  }
}
