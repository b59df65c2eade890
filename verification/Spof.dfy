/** internal/graph/scoring.go, identifySPOFs: removal testing finds exactly the dominators of the mesh. */
module Spof {
  import opened Paths
  import opened DependencyGraphs
  import opened Reachability
  import opened Sorting

  /** The roots the search starts from: services nothing calls, or every service when each one is called. */
  function SearchRoots(nodes: set<string>, edges: seq<DependencyEdge>): set<string> {
    var ingress := IngressRoots(nodes, edges);
    if ingress == {} then nodes else ingress
  }

  /** Every walk from a root to v passes through c. */
  ghost predicate Guards(arcs: set<Arc>, roots: set<string>, c: string, v: string) {
    forall p :: PathTo(arcs, roots, {}, v, p) ==> c in p
  }

  /** c isolates v: another root survives c, and v is reached (clear of `blind`) but only through c. */
  ghost predicate Isolates(arcs: set<Arc>, roots: set<string>, blind: set<string>, c: string, v: string) {
    && roots - {c} != {}
    && v != c
    && Reaches(arcs, roots, blind, v)
    && Guards(arcs, roots, c, v)
  }

  lemma GuardsIsUnreached(arcs: set<Arc>, roots: set<string>, c: string, v: string)
    ensures Guards(arcs, roots, c, v) <==> !Reaches(arcs, roots - {c}, {c}, v)
  {
    if Reaches(arcs, roots - {c}, {c}, v) {
      var p :| PathTo(arcs, roots - {c}, {c}, v, p);
      assert PathTo(arcs, roots, {}, v, p) && c !in p;
    }
    if !Guards(arcs, roots, c, v) {
      var p :| PathTo(arcs, roots, {}, v, p) && c !in p;
      assert PathTo(arcs, roots - {c}, {c}, v, p);
    }
  }

  ghost predicate IsIsolatedList(nodes: set<string>, edges: seq<DependencyEdge>, c: string, isolated: seq<string>) {
    && NoRepeats(isolated)
    && forall v :: v in isolated <==> |nodes| > 2 && Isolates(Arcs(edges), SearchRoots(nodes, edges), {""}, c, v)
  }

  method FindSearchRoots(g: DependencyGraph) returns (roots: seq<string>)
    ensures Elements(roots) == SearchRoots(g.nodes.Keys, g.edges)
  {
    roots := FindIngressRoots(g);
    if |roots| == 0 {
      roots := ListKeys(g.nodes.Keys);
    } else {
      assert roots[0] in Elements(roots);
    }
  }

  ghost predicate Judged(nodes: set<string>, edges: seq<DependencyEdge>, c: string, spof: bool, isolated: seq<string>) {
    (spof <==> isolated != []) && IsIsolatedList(nodes, edges, c, isolated)
  }

  /** The contract of identifySPOFs for any graph; "" is the name that means "exclude nothing". */
  ghost predicate AreSpofs(nodes: set<string>, edges: seq<DependencyEdge>, isSPOF: map<string, bool>,
                           isolatedMap: map<string, seq<string>>) {
    && isSPOF.Keys == isolatedMap.Keys == nodes
    && forall c :: c in nodes ==> Judged(nodes, edges, c, isSPOF[c], isolatedMap[c])
  }

  lemma SmallMeshUnjudged(nodes: set<string>, edges: seq<DependencyEdge>, c: string)
    requires |nodes| <= 2
    ensures Judged(nodes, edges, c, false, [])
  {
  }

  method Without(roots: seq<string>, candidate: string) returns (active: seq<string>)
    ensures Elements(active) == Elements(roots) - {candidate}
  {
    active := [];
    for i := 0 to |roots|
      invariant Elements(active) == Elements(roots[..i]) - {candidate}
    {
      assert Elements(roots[..i + 1]) == Elements(roots[..i]) + {roots[i]};
      if roots[i] != candidate {
        assert Elements(active + [roots[i]]) == Elements(active) + {roots[i]};
        active := active + [roots[i]];
      }
    }
    assert roots[..|roots|] == roots;
  }

  /** Lists the services reached before but not after a removal, in some order. */
  method Lost(before: set<string>, after: set<string>, candidate: string) returns (isolated: seq<string>)
    ensures NoRepeats(isolated)
    ensures Elements(isolated) == before - after - {candidate}
  {
    isolated := [];
    var pending := before;
    while pending != {}
      invariant pending <= before
      invariant NoRepeats(isolated)
      invariant Elements(isolated) == before - pending - after - {candidate}
    {
      var node :| node in pending;
      pending := pending - {node};
      if node != candidate && node !in after {
        assert node !in Elements(isolated);
        assert Elements(isolated + [node]) == Elements(isolated) + {node};
        isolated := isolated + [node];
      }
    }
  }

  /** Simulates the failure of one candidate. */
  method Isolated(g: DependencyGraph, roots: seq<string>, before: set<string>, candidate: string)
    returns (isolated: seq<string>)
    requires |g.nodes| > 2
    requires Elements(roots) == SearchRoots(g.nodes.Keys, g.edges)
    requires forall v :: v in before <==> Reaches(Arcs(g.edges), Elements(roots), {""}, v)
    ensures IsIsolatedList(g.nodes.Keys, g.edges, candidate, isolated)
  {
    assert |g.nodes.Keys| == |g.nodes|;
    var activeRoots := Without(roots, candidate);
    if |activeRoots| == 0 {
      assert Elements(roots) - {candidate} == {};
      return [];
    }
    assert activeRoots[0] in Elements(roots) - {candidate};
    var after := GetReachableNodes(g, activeRoots, candidate);
    isolated := Lost(before, after, candidate);
    forall v ensures v in isolated <==> Isolates(Arcs(g.edges), Elements(roots), {""}, candidate, v) {
      GuardsIsUnreached(Arcs(g.edges), Elements(roots), candidate, v);
      assert v in isolated <==> v in Elements(isolated);
    }
  }

  method IdentifySPOFs(g: DependencyGraph) returns (isSPOF: map<string, bool>, isolatedMap: map<string, seq<string>>)
    ensures AreSpofs(g.nodes.Keys, g.edges, isSPOF, isolatedMap)
  {
    hide Isolates, Reaches, IsIsolatedList, SearchRoots, IngressRoots;
    isSPOF := map name | name in g.nodes.Keys :: false;
    isolatedMap := map name | name in g.nodes.Keys :: [];
    assert |g.nodes.Keys| == |g.nodes|;
    if |g.nodes| <= 2 {
      forall c | c in g.nodes ensures Judged(g.nodes.Keys, g.edges, c, false, []) {
        SmallMeshUnjudged(g.nodes.Keys, g.edges, c);
      }
      return;
    }
    var roots := FindSearchRoots(g);
    var before := GetReachableNodes(g, roots, "");

    var pending := g.nodes.Keys;
    while pending != {}
      invariant pending <= g.nodes.Keys
      invariant isSPOF.Keys == isolatedMap.Keys == g.nodes.Keys
      invariant forall c :: c in pending ==> !isSPOF[c] && isolatedMap[c] == []
      invariant forall c :: c in g.nodes.Keys - pending ==> Judged(g.nodes.Keys, g.edges, c, isSPOF[c], isolatedMap[c])
    {
      var candidate :| candidate in pending;
      pending := pending - {candidate};
      var isolated := Isolated(g, roots, before, candidate);
      if |isolated| > 0 {
        isSPOF := isSPOF[candidate := true];
        isolatedMap := isolatedMap[candidate := isolated];
      }
    }
  }

  // ---------------------------------------------------------------- what the answer means

  lemma ReachedIsNode(nodes: set<string>, edges: seq<DependencyEdge>, p: seq<string>, i: nat)
    requires forall e :: e in edges ==> e.from in nodes && e.to in nodes
    requires IsPath(Arcs(edges), p) && p[0] in SearchRoots(nodes, edges) && i < |p|
    ensures p[i] in nodes
  {
    OnPath(Arcs(edges), SearchRoots(nodes, edges), p, i);
  }

  /** When no call leaves a service named "", a walk meets that name at its end or nowhere, so the sentinel hides that
      service and no other. */
  lemma SentinelHidesOnlyItself(edges: seq<DependencyEdge>, roots: set<string>, v: string)
    requires forall e :: e in edges ==> e.from != ""
    ensures Reaches(Arcs(edges), roots, {""}, v) <==> v != "" && Reaches(Arcs(edges), roots, {}, v)
  {
    var arcs := Arcs(edges);
    if v != "" && Reaches(arcs, roots, {}, v) {
      var p :| PathTo(arcs, roots, {}, v, p);
      forall i | 0 <= i < |p| ensures p[i] != "" {
        if i < |p| - 1 {
          assert Linked(arcs, p, i);
        }
      }
      assert PathTo(arcs, roots, {""}, v, p);
    }
    if Reaches(arcs, roots, {""}, v) {
      var p :| PathTo(arcs, roots, {""}, v, p);
      assert PathTo(arcs, roots, {}, v, p);
    }
  }

  /** When every service has a caller, each one is its own root, and nothing is isolated. */
  lemma FallbackIsolatesNothing(nodes: set<string>, edges: seq<DependencyEdge>, c: string, v: string)
    requires forall e :: e in edges ==> e.from in nodes && e.to in nodes
    requires IngressRoots(nodes, edges) == {}
    ensures !Isolates(Arcs(edges), SearchRoots(nodes, edges), {}, c, v)
  {
    var arcs := Arcs(edges);
    if v != c && Reaches(arcs, nodes, {}, v) {
      var p :| PathTo(arcs, nodes, {}, v, p);
      ReachedIsNode(nodes, edges, p, |p| - 1);
      assert PathTo(arcs, nodes, {}, v, [v]);
    }
  }

  /** In a mesh of at most two services nothing is isolated, so leaving early changes no answer. */
  lemma SmallMeshIsolatesNothing(nodes: set<string>, edges: seq<DependencyEdge>, c: string, v: string)
    requires forall e :: e in edges ==> e.from in nodes && e.to in nodes
    requires |nodes| <= 2 && c in nodes
    ensures !Isolates(Arcs(edges), SearchRoots(nodes, edges), {}, c, v)
  {
    var arcs, roots := Arcs(edges), SearchRoots(nodes, edges);
    if roots - {c} != {} && v != c && Reaches(arcs, roots, {}, v) {
      var r :| r in roots - {c};
      var p :| PathTo(arcs, roots, {}, v, p);
      ReachedIsNode(nodes, edges, p, |p| - 1);
      assert r != v ==> |{c, r, v}| == 3;
      SubsetSize({c, r, v}, nodes);
      assert PathTo(arcs, roots, {}, v, [v]);
    }
  }

  /** Some ingress root other than c exists, and c stands on every walk from an ingress root to the reached service v.
      */
  ghost predicate Severs(nodes: set<string>, edges: seq<DependencyEdge>, c: string, v: string) {
    Isolates(Arcs(edges), IngressRoots(nodes, edges), {}, c, v)
  }

  /** On every mesh AddEdge built in which no call leaves a service named "", and BuildGraph adds no such call, each
      list holds exactly the services its candidate severs, less the service named "". */
  lemma SpofIsDominationButForEmpty(nodes: set<string>, edges: seq<DependencyEdge>, isSPOF: map<string, bool>,
                                    isolatedMap: map<string, seq<string>>)
    requires forall e :: e in edges ==> e.from in nodes && e.to in nodes && e.from != ""
    requires AreSpofs(nodes, edges, isSPOF, isolatedMap)
    ensures forall c, v :: c in nodes ==> (v in isolatedMap[c] <==> v != "" && Severs(nodes, edges, c, v))
    ensures forall c :: c in nodes ==> (isSPOF[c] <==> exists v :: v != "" && Severs(nodes, edges, c, v))
    ensures IngressRoots(nodes, edges) == {} ==> forall c :: c in nodes ==> !isSPOF[c]
  {
    var arcs, roots := Arcs(edges), SearchRoots(nodes, edges);
    forall c, v | c in nodes ensures v in isolatedMap[c] <==> v != "" && Severs(nodes, edges, c, v) {
      SentinelHidesOnlyItself(edges, roots, v);
      assert Isolates(arcs, roots, {""}, c, v) <==> v != "" && Isolates(arcs, roots, {}, c, v);
      if |nodes| <= 2 {
        SmallMeshIsolatesNothing(nodes, edges, c, v);
      }
      if IngressRoots(nodes, edges) == {} {
        FallbackIsolatesNothing(nodes, edges, c, v);
      }
    }
    forall c | c in nodes ensures isSPOF[c] <==> exists v :: v != "" && Severs(nodes, edges, c, v) {
      if isolatedMap[c] != [] {
        assert isolatedMap[c][0] in isolatedMap[c];
      }
    }
  }

  lemma SeversNodes(nodes: set<string>, edges: seq<DependencyEdge>, c: string, v: string)
    requires forall e :: e in edges ==> e.from in nodes && e.to in nodes
    ensures Severs(nodes, edges, c, v) ==> v in nodes
  {
    if Severs(nodes, edges, c, v) {
      var p :| PathTo(Arcs(edges), IngressRoots(nodes, edges), {}, v, p);
      OnPath(Arcs(edges), IngressRoots(nodes, edges), p, |p| - 1);
    }
  }

  /** identifySPOFs answers the domination question on every mesh that AddEdge built without a service named "". */
  lemma SpofIsDomination(nodes: set<string>, edges: seq<DependencyEdge>, isSPOF: map<string, bool>,
                         isolatedMap: map<string, seq<string>>)
    requires forall e :: e in edges ==> e.from in nodes && e.to in nodes
    requires "" !in nodes
    requires AreSpofs(nodes, edges, isSPOF, isolatedMap)
    ensures forall c, v :: c in nodes ==> (v in isolatedMap[c] <==> Severs(nodes, edges, c, v))
    ensures forall c :: c in nodes ==> (isSPOF[c] <==> exists v :: Severs(nodes, edges, c, v))
    ensures IngressRoots(nodes, edges) == {} ==> forall c :: c in nodes ==> !isSPOF[c]
  {
    hide AreSpofs, Severs;
    SpofIsDominationButForEmpty(nodes, edges, isSPOF, isolatedMap);
    forall c ensures !Severs(nodes, edges, c, "") {
      SeversNodes(nodes, edges, c, "");
    }
  }

  lemma LastArc(arcs: set<Arc>, roots: set<string>, avoid: set<string>, v: string, p: seq<string>)
    requires PathTo(arcs, roots, avoid, v, p) && v !in roots
    ensures |p| > 1 && p[|p| - 2] !in avoid && Arc(p[|p| - 2], v) in arcs
  {
    assert Linked(arcs, p, |p| - 2);
  }

  /** gateway calls a, and a calls a service whose span names no process; cron is another root. */
  function NamelessMesh(): seq<DependencyEdge> {
    [DependencyEdge("gateway", "a", 1, 1.0), DependencyEdge("a", "", 1, 1.0)]
  }

  lemma NamelessIsSevered()
    ensures Severs({"gateway", "a", "", "cron"}, NamelessMesh(), "a", "")
  {
    var nodes, edges := {"gateway", "a", "", "cron"}, NamelessMesh();
    var arcs, roots := Arcs(edges), IngressRoots(nodes, edges);
    assert edges[0] in edges && edges[1] in edges;
    assert arcs == {Arc("gateway", "a"), Arc("a", "")};
    NoEdgesInto(edges, "gateway");
    NoEdgesInto(edges, "cron");
    NoEdgesInto(edges, "");
    NoEdgesInto(edges, "a");
    assert Arc("a", "") in arcs && Arc("gateway", "a") in arcs;
    assert roots == {"gateway", "cron"};
    assert "cron" in roots - {"a"};
    ReachesRoot(arcs, roots, {}, "gateway");
    ReachesStep(arcs, roots, {}, "gateway", "a");
    ReachesStep(arcs, roots, {}, "a", "");
    forall p | PathTo(arcs, roots, {}, "", p) ensures "a" in p {
      LastArc(arcs, roots, {}, "", p);
    }
  }

  lemma NothingElseIsSevered(v: string)
    requires Severs({"gateway", "a", "", "cron"}, NamelessMesh(), "a", v)
    ensures v == ""
  {
    var arcs, roots := Arcs(NamelessMesh()), IngressRoots({"gateway", "a", "", "cron"}, NamelessMesh());
    var p :| PathTo(arcs, roots, {}, v, p);
    assert "a" in p && v != "a";
    assert |p| > 1;
    assert Linked(arcs, p, |p| - 2);
  }

  /** BuildGraph can build a mesh in which a is a single point of failure and is not reported as one: it severs nothing
      but the service named "". */
  lemma EmptyNameHidesIsolation(isSPOF: map<string, bool>, isolatedMap: map<string, seq<string>>)
    requires AreSpofs({"gateway", "a", "", "cron"}, NamelessMesh(), isSPOF, isolatedMap)
    ensures Severs({"gateway", "a", "", "cron"}, NamelessMesh(), "a", "") && !isSPOF["a"]
  {
    hide Severs, Judged;
    var nodes, edges := {"gateway", "a", "", "cron"}, NamelessMesh();
    NamelessIsSevered();
    SpofIsDominationButForEmpty(nodes, edges, isSPOF, isolatedMap);
    if isSPOF["a"] {
      var v :| v != "" && Severs(nodes, edges, "a", v);
      NothingElseIsSevered(v);
    }
  }
}
