/** scripts/simulate_weights.py, simulate_mesh_failure_impact: failure injection over a service mesh.

    Floats are exact reals; the mesh classes and dictionaries are values. */
module FailureCascade {
  import opened Paths
  import opened DependencyGraphs
  import opened Reachability
  import opened Rounding

  datatype Edge = Edge(src: string, dst: string, critical: bool)

  datatype Transaction = Transaction(path: seq<string>, weight: real)

  /** ServiceMesh, filled by its add_* methods, each of which also adds the services it names. */
  class ServiceMesh {
    var nodes: set<string>
    var edges: seq<Edge>
    var ingressRoutes: seq<string>
    var transactions: seq<Transaction>

    ghost predicate Valid()
      reads this
    {
      && (forall e :: e in edges ==> e.src in nodes && e.dst in nodes)
      && (forall r :: r in ingressRoutes ==> r in nodes)
    }

    constructor ()
      ensures Valid() && nodes == {} && edges == [] && ingressRoutes == [] && transactions == []
    {
      nodes, edges, ingressRoutes, transactions := {}, [], [], [];
    }

    method AddEdge(src: string, dst: string, critical: bool)
      requires Valid()
      modifies this
      ensures Valid() && edges == old(edges) + [Edge(src, dst, critical)] && nodes == old(nodes) + {src, dst}
      ensures ingressRoutes == old(ingressRoutes) && transactions == old(transactions)
    {
      nodes := nodes + {src, dst};
      edges := edges + [Edge(src, dst, critical)];
    }

    method AddIngressRoute(root: string)
      requires Valid()
      modifies this
      ensures Valid() && ingressRoutes == old(ingressRoutes) + [root] && nodes == old(nodes) + {root}
      ensures edges == old(edges) && transactions == old(transactions)
    {
      nodes := nodes + {root};
      ingressRoutes := ingressRoutes + [root];
    }

    method AddTransaction(path: seq<string>, weight: real)
      requires Valid()
      modifies this
      ensures Valid() && transactions == old(transactions) + [Transaction(path, weight)]
      ensures nodes == old(nodes) + Elements(path)
      ensures edges == old(edges) && ingressRoutes == old(ingressRoutes)
    {
      nodes := nodes + Elements(path);
      transactions := transactions + [Transaction(path, weight)];
    }
  }

  function CriticalArcs(edges: seq<Edge>): set<Arc> {
    set e | e in edges && e.critical :: Arc(e.src, e.dst)
  }

  function AllArcs(edges: seq<Edge>): set<Arc> {
    set e | e in edges :: Arc(e.src, e.dst)
  }

  // ---------------------------------------------------------------- which services fail

  /** s depends on a failed service along critical calls (possibly none: it is one). */
  ghost predicate Fails(arcs: set<Arc>, failed: set<string>, s: string) {
    exists p :: IsPath(arcs, p) && p[0] == s && p[|p| - 1] in failed
  }

  /** v lies at least one critical call below s. */
  ghost predicate Below(arcs: set<Arc>, s: string, v: string) {
    exists p :: IsPath(arcs, p) && |p| >= 2 && p[0] == s && p[|p| - 1] == v
  }

  ghost predicate Acyclic(arcs: set<Arc>) {
    forall v :: !Below(arcs, v, v)
  }

  /** Calls the recursion follows: it stops at failed services. */
  function Followed(arcs: set<Arc>, failed: set<string>): set<Arc> {
    set a | a in arcs && a.from !in failed
  }

  ghost function BelowSet(arcs: set<Arc>, s: string): set<string> {
    set v | v in Heads(arcs) && Below(arcs, s, v)
  }

  lemma BelowInMore(arcs: set<Arc>, fewer: set<Arc>, s: string, d: string)
    requires fewer <= arcs && Below(fewer, s, d)
    ensures Below(arcs, s, d)
  {
    var p :| IsPath(fewer, p) && |p| >= 2 && p[0] == s && p[|p| - 1] == d;
    forall i | 0 <= i < |p| - 1 ensures Linked(arcs, p, i) {
      assert Linked(fewer, p, i);
    }
  }

  lemma FewerArcsAcyclic(arcs: set<Arc>, fewer: set<Arc>)
    requires Acyclic(arcs) && fewer <= arcs
    ensures Acyclic(fewer)
  {
    forall v ensures !Below(fewer, v, v) {
      if Below(fewer, v, v) {
        BelowInMore(arcs, fewer, v, v);
      }
    }
  }

  lemma Prepend(arcs: set<Arc>, s: string, p: seq<string>)
    requires IsPath(arcs, p) && Arc(s, p[0]) in arcs
    ensures IsPath(arcs, [s] + p)
  {
    assert Linked(arcs, [s, p[0]], 0);
    Join(arcs, [s, p[0]], p);
    assert [s, p[0]] + p[1..] == [s] + p;
  }

  /** Following a call strictly shrinks what lies below: the recursion terminates. */
  lemma BelowShrinks(arcs: set<Arc>, s: string, d: string)
    requires Acyclic(arcs) && Arc(s, d) in arcs
    ensures BelowSet(arcs, d) < BelowSet(arcs, s)
    ensures |BelowSet(arcs, d)| < |BelowSet(arcs, s)|
  {
    forall v | v in BelowSet(arcs, d) ensures v in BelowSet(arcs, s) {
      var p :| IsPath(arcs, p) && |p| >= 2 && p[0] == d && p[|p| - 1] == v;
      Prepend(arcs, s, p);
      assert ([s] + p)[|p|] == v;
      assert Below(arcs, s, v);
    }
    assert Linked(arcs, [s, d], 0);
    assert IsPath(arcs, [s, d]);
    assert Below(arcs, s, d);
    assert Arc(s, d).to in Heads(arcs);
    assert d in BelowSet(arcs, s) && d !in BelowSet(arcs, d);
    SmallerSet(BelowSet(arcs, d), BelowSet(arcs, s));
  }

  /** A healthy service is one that has not failed and whose critical callees are all healthy. */
  lemma FailsByCallee(arcs: set<Arc>, failed: set<string>, s: string)
    ensures Fails(arcs, failed, s) <==> s in failed || exists d :: Arc(s, d) in arcs && Fails(arcs, failed, d)
  {
    if s in failed {
      assert IsPath(arcs, [s]);
    } else if Fails(arcs, failed, s) {
      var p :| IsPath(arcs, p) && p[0] == s && p[|p| - 1] in failed;
      Segment(arcs, p, 1, |p|);
      assert Linked(arcs, p, 0);
      assert p[1..|p|][|p| - 2] == p[|p| - 1];
      assert Arc(s, p[1]) in arcs && Fails(arcs, failed, p[1]);
    }
    if d :| Arc(s, d) in arcs && Fails(arcs, failed, d) {
      var p :| IsPath(arcs, p) && p[0] == d && p[|p| - 1] in failed;
      Prepend(arcs, s, p);
      assert ([s] + p)[|p|] in failed;
    }
  }

  ghost predicate MemoTrue(arcs: set<Arc>, failed: set<string>, memo: map<string, bool>) {
    forall s :: s in memo ==> (memo[s] <==> !Fails(arcs, failed, s))
  }

  /** is_service_healthy; the memo is handed back because Python updates it in place. */
  method IsServiceHealthy(deps: map<string, seq<string>>, ghost arcs: set<Arc>, s: string, failed: set<string>,
                          memo: map<string, bool>)
    returns (healthy: bool, memo': map<string, bool>)
    requires IsAdjacency(deps, arcs) && Acyclic(Followed(arcs, failed)) && MemoTrue(arcs, failed, memo)
    ensures healthy <==> !Fails(arcs, failed, s)
    ensures MemoTrue(arcs, failed, memo')
    decreases |BelowSet(Followed(arcs, failed), s)|
  {
    hide Fails, Acyclic, Below, BelowSet;
    FailsByCallee(arcs, failed, s);
    memo' := memo;
    if s in failed {
      return false, memo';
    }
    if s in memo {
      return memo[s], memo';
    }
    var callees := Successors(deps, s);
    for i := 0 to |callees|
      invariant MemoTrue(arcs, failed, memo')
      invariant forall k :: 0 <= k < i ==> !Fails(arcs, failed, callees[k])
    {
      var dep := callees[i];
      assert dep in Successors(deps, s);
      assert Arc(s, dep) in Followed(arcs, failed);
      BelowShrinks(Followed(arcs, failed), s, dep);
      var ok;
      ok, memo' := IsServiceHealthy(deps, arcs, dep, failed, memo');
      if !ok {
        memo' := memo'[s := false];
        return false, memo';
      }
    }
    assert forall d :: Arc(s, d) in arcs ==> d in Successors(deps, s);
    memo' := memo'[s := true];
    return true, memo';
  }

  method BuildDeps(edges: seq<Edge>, criticalOnly: bool) returns (deps: map<string, seq<string>>)
    ensures IsAdjacency(deps, if criticalOnly then CriticalArcs(edges) else AllArcs(edges))
  {
    var chosen: seq<DependencyEdge> := [];
    for i := 0 to |edges|
      invariant Arcs(chosen) == if criticalOnly then CriticalArcs(edges[..i]) else AllArcs(edges[..i])
    {
      var e := edges[i];
      assert edges[..i + 1] == edges[..i] + [e];
      ArcsGrow(edges[..i], e, chosen, DependencyEdge(e.src, e.dst, 0, 0.0));
      if e.critical || !criticalOnly {
        chosen := chosen + [DependencyEdge(e.src, e.dst, 0, 0.0)];
      }
    }
    assert edges[..|edges|] == edges;
    deps := BuildAdjacency(chosen);
  }

  lemma ArcsGrow(edges: seq<Edge>, e: Edge, chosen: seq<DependencyEdge>, d: DependencyEdge)
    requires d.from == e.src && d.to == e.dst
    ensures CriticalArcs(edges + [e]) == CriticalArcs(edges) + (if e.critical then {Arc(e.src, e.dst)} else {})
    ensures AllArcs(edges + [e]) == AllArcs(edges) + {Arc(e.src, e.dst)}
    ensures Arcs(chosen + [d]) == Arcs(chosen) + {Arc(e.src, e.dst)}
  {
    assert forall x :: x in edges + [e] <==> x in edges || x == e;
    assert forall x :: x in chosen + [d] <==> x in chosen || x == d;
  }

  /** The cascade of one injected failure: the memo is shared over all services asked about. */
  method Cascade(nodes: set<string>, deps: map<string, seq<string>>, ghost arcs: set<Arc>, target: string)
    returns (cascade: set<string>)
    requires IsAdjacency(deps, arcs) && Acyclic(Followed(arcs, {target}))
    ensures forall n :: n in cascade <==> n in nodes && Fails(arcs, {target}, n)
  {
    hide Fails, Acyclic;
    cascade := {};
    var memo: map<string, bool> := map[];
    var pending := nodes;
    while pending != {}
      invariant pending <= nodes && MemoTrue(arcs, {target}, memo)
      invariant forall n :: n in cascade <==> n in nodes - pending && Fails(arcs, {target}, n)
    {
      var n :| n in pending;
      pending := pending - {n};
      var healthy;
      healthy, memo := IsServiceHealthy(deps, arcs, n, {target}, memo);
      if !healthy {
        cascade := cascade + {n};
      }
    }
  }

  // ---------------------------------------------------------------- impact

  /** The transaction visits a failed service. */
  predicate Hit(t: Transaction, cascade: set<string>) {
    exists s :: s in t.path && s in cascade
  }

  function TotalWeight(ts: seq<Transaction>): real {
    if ts == [] then 0.0 else TotalWeight(ts[..|ts| - 1]) + ts[|ts| - 1].weight
  }

  function FailedWeight(ts: seq<Transaction>, cascade: set<string>): real {
    if ts == [] then 0.0
    else FailedWeight(ts[..|ts| - 1], cascade) + (if Hit(ts[|ts| - 1], cascade) then ts[|ts| - 1].weight else 0.0)
  }

  lemma {:induction false} FailedWithinTotal(ts: seq<Transaction>, cascade: set<string>)
    requires forall t :: t in ts ==> t.weight >= 0.0
    ensures 0.0 <= FailedWeight(ts, cascade) <= TotalWeight(ts)
  {
    if ts != [] {
      FailedWithinTotal(ts[..|ts| - 1], cascade);
      assert ts[|ts| - 1] in ts;
    }
  }

  method TransactionLoss(ts: seq<Transaction>, cascade: set<string>) returns (ratio: real)
    ensures ratio == if TotalWeight(ts) > 0.0 then FailedWeight(ts, cascade) / TotalWeight(ts) else 0.0
  {
    var failedWeight, totalWeight := 0.0, 0.0;
    for i := 0 to |ts|
      invariant totalWeight == TotalWeight(ts[..i]) && failedWeight == FailedWeight(ts[..i], cascade)
    {
      assert ts[..i + 1][..i] == ts[..i];
      totalWeight := totalWeight + ts[i].weight;
      var failed := false;
      var k := 0;
      while k < |ts[i].path| && !failed
        invariant k <= |ts[i].path|
        invariant failed <==> exists j :: 0 <= j < k && ts[i].path[j] in cascade
      {
        failed := ts[i].path[k] in cascade;
        k := k + 1;
      }
      assert failed <==> Hit(ts[i], cascade);
      if failed {
        failedWeight := failedWeight + ts[i].weight;
      }
    }
    assert ts[..|ts|] == ts;
    ratio := if totalWeight > 0.0 then failedWeight / totalWeight else 0.0;
  }

  /** Services still reached from the ingress routes around the cascade. */
  method StillReached(edges: seq<Edge>, roots: seq<string>, cascade: set<string>) returns (reached: set<string>)
    ensures forall v :: v in reached <==> Reaches(AllArcs(edges), Elements(roots), cascade, v)
  {
    ghost var arcs, rootSet := AllArcs(edges), Elements(roots);
    var adj := BuildDeps(edges, false);
    var queue: seq<string>;
    reached, queue := Enqueue(roots, cascade, {}, []);
    FrontierStart(arcs, rootSet, cascade, queue);
    while queue != []
      invariant Frontier(arcs, rootSet, cascade, reached, queue)
      decreases Unseen(arcs, rootSet, reached), |queue|
    {
      var curr := queue[0];
      ghost var seen, waiting := reached, queue;
      reached, queue := Enqueue(Successors(adj, curr), cascade, reached, queue[1..]);
      FrontierStep(arcs, rootSet, cascade, seen, waiting, Elements(Successors(adj, curr)), reached, queue);
      UnseenShrinks(arcs, rootSet, seen, reached);
    }
    FrontierDone(arcs, rootSet, cascade, reached);
  }

  lemma ReachedAreNodes(nodes: set<string>, edges: seq<Edge>, roots: seq<string>, avoid: set<string>, v: string)
    requires forall e :: e in edges ==> e.src in nodes && e.dst in nodes
    requires forall r :: r in roots ==> r in nodes
    requires Reaches(AllArcs(edges), Elements(roots), avoid, v)
    ensures v in nodes
  {
    var p :| PathTo(AllArcs(edges), Elements(roots), avoid, v, p);
    OnPath(AllArcs(edges), Elements(roots), p, |p| - 1);
  }

  /** The three damage ratios of one injected failure. */
  datatype Damage = Damage(transactionLoss: real, blastRadius: real, isolation: real)

  function Impact(d: Damage): real {
    0.50 * d.transactionLoss + 0.30 * d.blastRadius + 0.20 * d.isolation
  }

  ghost predicate IsDamage(mesh: ServiceMesh, target: string, d: Damage)
    reads mesh
  {
    var cascade := set n | n in mesh.nodes && Fails(CriticalArcs(mesh.edges), {target}, n);
    var reached := set v | v in mesh.nodes && Reaches(AllArcs(mesh.edges), Elements(mesh.ingressRoutes), cascade, v);
    && mesh.nodes != {}
    && d.transactionLoss == (if TotalWeight(mesh.transactions) > 0.0
                             then FailedWeight(mesh.transactions, cascade) / TotalWeight(mesh.transactions) else 0.0)
    && d.blastRadius == |cascade| as real / |mesh.nodes| as real
    && d.isolation == (|mesh.nodes| - |reached|) as real / |mesh.nodes| as real
  }

  /** Failure injection at one service. */
  method InjectFailure(mesh: ServiceMesh, deps: map<string, seq<string>>, target: string) returns (d: Damage)
    requires mesh.Valid() && target in mesh.nodes
    requires IsAdjacency(deps, CriticalArcs(mesh.edges)) && Acyclic(Followed(CriticalArcs(mesh.edges), {target}))
    ensures IsDamage(mesh, target, d)
  {
    hide Fails, Acyclic, Reaches;
    var cascade := Cascade(mesh.nodes, deps, CriticalArcs(mesh.edges), target);
    assert cascade == set n | n in mesh.nodes && Fails(CriticalArcs(mesh.edges), {target}, n);
    var loss := TransactionLoss(mesh.transactions, cascade);
    var reached := StillReached(mesh.edges, mesh.ingressRoutes, cascade);
    forall v | v in reached ensures v in mesh.nodes {
      ReachedAreNodes(mesh.nodes, mesh.edges, mesh.ingressRoutes, cascade, v);
    }
    assert reached == set v | v in mesh.nodes && Reaches(AllArcs(mesh.edges), Elements(mesh.ingressRoutes), cascade, v);
    d := Damage(loss, |cascade| as real / |mesh.nodes| as real,
      (|mesh.nodes| - |reached|) as real / |mesh.nodes| as real);
  }

  /** The composite impact lies in [0,1], and is positive because a failed service is in its own blast radius. */
  lemma ImpactInUnit(mesh: ServiceMesh, target: string, d: Damage)
    requires target in mesh.nodes && IsDamage(mesh, target, d)
    requires forall t :: t in mesh.transactions ==> t.weight >= 0.0
    ensures 0.0 < Impact(d) <= 1.0
  {
    hide Fails, Reaches;
    var cascade := set n | n in mesh.nodes && Fails(CriticalArcs(mesh.edges), {target}, n);
    var reached := set v | v in mesh.nodes && Reaches(AllArcs(mesh.edges), Elements(mesh.ingressRoutes), cascade, v);
    FailsByCallee(CriticalArcs(mesh.edges), {target}, target);
    assert target in cascade;
    SubsetSize(cascade, mesh.nodes);
    SubsetSize(reached, mesh.nodes);
    FailedWithinTotal(mesh.transactions, cascade);
    if TotalWeight(mesh.transactions) > 0.0 {
      RatioInUnit(FailedWeight(mesh.transactions, cascade), TotalWeight(mesh.transactions));
    }
    RatioInUnit(|cascade| as real, |mesh.nodes| as real);
    RatioInUnit((|mesh.nodes| - |reached|) as real, |mesh.nodes| as real);
    PositiveRatio(|cascade| as real, |mesh.nodes| as real);
  }

  lemma PositiveRatio(x: real, max: real)
    requires x > 0.0 && max > 0.0
    ensures x / max > 0.0
  {
  }

  /** Impact of every service, before normalisation. */
  method SimulateMeshFailureImpact(mesh: ServiceMesh) returns (damage: map<string, Damage>)
    requires mesh.Valid() && Acyclic(CriticalArcs(mesh.edges))
    ensures damage.Keys == mesh.nodes
    ensures forall t :: t in damage ==> IsDamage(mesh, t, damage[t])
  {
    hide IsDamage, Acyclic;
    damage := map[];
    var deps := BuildDeps(mesh.edges, true);
    var pending := mesh.nodes;
    while pending != {}
      invariant pending <= mesh.nodes && damage.Keys == mesh.nodes - pending
      invariant forall t :: t in damage ==> IsDamage(mesh, t, damage[t])
    {
      var target :| target in pending;
      pending := pending - {target};
      FewerArcsAcyclic(CriticalArcs(mesh.edges), Followed(CriticalArcs(mesh.edges), {target}));
      var d := InjectFailure(mesh, deps, target);
      damage := damage[target := d];
    }
  }

  /** Division by the greatest impact. */
  method Normalise(impacts: map<string, real>) returns (normalised: map<string, real>)
    requires forall t :: t in impacts ==> impacts[t] >= 0.0
    ensures normalised.Keys == impacts.Keys
    ensures forall t :: t in normalised ==> 0.0 <= normalised[t] <= 1.0
    ensures (exists t :: t in impacts && impacts[t] > 0.0) ==> exists t :: t in normalised && normalised[t] == 1.0
    ensures forall t, u :: t in impacts && u in impacts && impacts[t] <= impacts[u] ==> normalised[t] <= normalised[u]
  {
    var max := 0.0;
    var pending := impacts.Keys;
    while pending != {}
      invariant pending <= impacts.Keys && max >= 0.0
      invariant forall t :: t in impacts.Keys - pending ==> impacts[t] <= max
      invariant max == 0.0 || exists t :: t in impacts && impacts[t] == max
    {
      var t :| t in pending;
      pending := pending - {t};
      if impacts[t] > max {
        max := impacts[t];
      }
    }
    if max > 0.0 {
      normalised := map t | t in impacts :: impacts[t] / max;
      forall t | t in impacts ensures 0.0 <= impacts[t] / max <= 1.0 {
        RatioInUnit(impacts[t], max);
      }
      ghost var top :| top in impacts && impacts[top] == max;
      SelfRatio(max);
      assert normalised[top] == 1.0;
      forall t, u | t in impacts && u in impacts && impacts[t] <= impacts[u] ensures normalised[t] <= normalised[u] {
        RatioMonotone(impacts[t], impacts[u], max);
      }
    } else {
      normalised := impacts;
    }
  }

  lemma SelfRatio(x: real)
    requires x > 0.0
    ensures x / x == 1.0
  {
  }

  lemma RatioMonotone(a: real, b: real, max: real)
    requires a <= b && max > 0.0
    ensures a / max <= b / max
  {
  }
}
