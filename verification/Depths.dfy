/** internal/graph/scoring.go, computeDepths: breadth-first levels are exact shortest distances. */
module Depths {
  import opened Paths
  import opened DependencyGraphs
  import opened Reachability

  /** Some walk of `d` arcs leads from a root to v. */
  ghost predicate WalkOf(arcs: set<Arc>, roots: set<string>, v: string, d: nat) {
    exists p :: PathTo(arcs, roots, {}, v, p) && |p| == d + 1
  }

  /** d is the least number of arcs on any walk from a root to v. */
  ghost predicate IsDistance(arcs: set<Arc>, roots: set<string>, v: string, d: nat) {
    && WalkOf(arcs, roots, v, d)
    && forall p :: PathTo(arcs, roots, {}, v, p) ==> |p| >= d + 1
  }

  lemma DistanceUnique(arcs: set<Arc>, roots: set<string>, v: string, d: nat, e: nat)
    requires IsDistance(arcs, roots, v, d) && IsDistance(arcs, roots, v, e)
    ensures d == e
  {
    var p :| PathTo(arcs, roots, {}, v, p) && |p| == d + 1;
    var q :| PathTo(arcs, roots, {}, v, q) && |q| == e + 1;
  }

  lemma WalkRoot(arcs: set<Arc>, roots: set<string>, r: string)
    requires r in roots
    ensures WalkOf(arcs, roots, r, 0)
  {
    assert PathTo(arcs, roots, {}, r, [r]);
  }

  lemma WalkStep(arcs: set<Arc>, roots: set<string>, u: string, v: string, d: nat)
    requires WalkOf(arcs, roots, u, d) && Arc(u, v) in arcs
    ensures WalkOf(arcs, roots, v, d + 1)
  {
    var p :| PathTo(arcs, roots, {}, u, p) && |p| == d + 1;
    ExtendPath(arcs, roots, {}, p, u, v);
  }

  /** Queue order: levels never fall along the queue and span at most two values. */
  ghost predicate Ordered(depths: map<string, nat>, queue: seq<string>) {
    && Elements(queue) <= depths.Keys
    && forall i, j :: 0 <= i <= j < |queue| ==> depths[queue[i]] <= depths[queue[j]] <= depths[queue[0]] + 1
  }

  /** Services already taken off the queue lie no deeper than its head. */
  ghost predicate BehindHead(depths: map<string, nat>, visited: set<string>, queue: seq<string>)
    requires visited <= depths.Keys && Elements(queue) <= depths.Keys
  {
    forall v :: v in visited && v !in queue && queue != [] ==> depths[v] <= depths[queue[0]]
  }

  ghost predicate Relaxed(arcs: set<Arc>, depths: map<string, nat>, visited: set<string>, queue: seq<string>)
    requires visited <= depths.Keys
  {
    forall a {:trigger a in arcs} :: a in arcs && a.from in visited && a.from !in queue
      ==> a.to in visited && depths[a.to] <= depths[a.from] + 1
  }

  ghost predicate Levels(arcs: set<Arc>, roots: set<string>, depths: map<string, nat>, visited: set<string>,
                         queue: seq<string>) {
    && roots <= visited <= depths.Keys
    && visited <= roots + Heads(arcs)
    && Elements(queue) <= visited
    && (forall r :: r in roots ==> depths[r] == 0)
    && (forall v :: v in visited ==> WalkOf(arcs, roots, v, depths[v]))
    && Ordered(depths, queue)
    && BehindHead(depths, visited, queue)
    && Relaxed(arcs, depths, visited, queue)
  }

  lemma LevelsStart(arcs: set<Arc>, roots: set<string>, depths: map<string, nat>, queue: seq<string>)
    requires Elements(queue) == roots <= depths.Keys
    requires forall v :: v in depths ==> depths[v] == 0
    ensures Levels(arcs, roots, depths, roots, queue)
  {
    forall v | v in roots ensures WalkOf(arcs, roots, v, depths[v]) {
      WalkRoot(arcs, roots, v);
    }
  }

  /** Everything visited lies at most one level below the head of the queue. */
  lemma NearHead(arcs: set<Arc>, roots: set<string>, depths: map<string, nat>, visited: set<string>, queue: seq<string>,
                 v: string)
    requires Levels(arcs, roots, depths, visited, queue) && queue != [] && v in visited
    ensures depths[v] <= depths[queue[0]] + 1
  {
    if v in queue {
      var i :| 0 <= i < |queue| && queue[i] == v;
      assert depths[queue[0]] <= depths[queue[i]] <= depths[queue[0]] + 1;
    }
  }

  /** The effect of one turn of the loop: unseen successors enter one level below the head. */
  ghost predicate Turn(arcs: set<Arc>, depths: map<string, nat>, visited: set<string>, queue: seq<string>,
                       added: seq<string>, depths': map<string, nat>, visited': set<string>, queue': seq<string>)
  {
    && queue != [] && queue[0] in depths
    && (forall v :: v in visited' <==> v in visited || Arc(queue[0], v) in arcs)
    && queue' == queue[1..] + added
    && (forall v :: v in added <==> v in visited' && v !in visited)
    && depths'.Keys == depths.Keys + (visited' - visited)
    && (forall v :: v in visited' && v !in visited ==> depths'[v] == depths[queue[0]] + 1)
    && (forall v :: v in depths && (v in visited || v !in visited') ==> depths'[v] == depths[v])
  }

  lemma TurnLevels(depths: map<string, nat>, arcs: set<Arc>, visited: set<string>, queue: seq<string>,
                   added: seq<string>, depths': map<string, nat>, visited': set<string>, queue': seq<string>, i: nat)
    requires Elements(queue) <= visited <= depths.Keys && Ordered(depths, queue)
    requires Turn(arcs, depths, visited, queue, added, depths', visited', queue') && i < |queue'|
    ensures queue'[i] in visited' && queue'[i] in depths'
    ensures depths[queue[0]] <= depths'[queue'[i]] <= depths[queue[0]] + 1
    ensures i < |queue| - 1 ==> queue'[i] == queue[i + 1] && depths'[queue'[i]] == depths[queue[i + 1]]
    ensures i >= |queue| - 1 ==> depths'[queue'[i]] == depths[queue[0]] + 1
  {
    if i < |queue| - 1 {
      assert queue[i + 1] in Elements(queue);
    } else {
      assert queue'[i] == added[i - (|queue| - 1)];
      assert queue'[i] in added;
    }
  }

  lemma TurnOrdered(arcs: set<Arc>, roots: set<string>, depths: map<string, nat>, visited: set<string>,
                    queue: seq<string>, added: seq<string>, depths': map<string, nat>, visited': set<string>,
                    queue': seq<string>)
    requires Levels(arcs, roots, depths, visited, queue)
    requires Turn(arcs, depths, visited, queue, added, depths', visited', queue')
    ensures Elements(queue') <= visited' <= depths'.Keys
    ensures Ordered(depths', queue')
  {
    forall i | 0 <= i < |queue'| ensures queue'[i] in visited' && queue'[i] in depths' {
      TurnLevels(depths, arcs, visited, queue, added, depths', visited', queue', i);
    }
    forall i, j | 0 <= i <= j < |queue'|
      ensures depths'[queue'[i]] <= depths'[queue'[j]] <= depths'[queue'[0]] + 1
    {
      TurnLevels(depths, arcs, visited, queue, added, depths', visited', queue', 0);
      TurnLevels(depths, arcs, visited, queue, added, depths', visited', queue', i);
      TurnLevels(depths, arcs, visited, queue, added, depths', visited', queue', j);
    }
  }

  lemma TurnBehind(arcs: set<Arc>, roots: set<string>, depths: map<string, nat>, visited: set<string>,
                   queue: seq<string>, added: seq<string>, depths': map<string, nat>, visited': set<string>,
                   queue': seq<string>)
    requires Levels(arcs, roots, depths, visited, queue)
    requires Turn(arcs, depths, visited, queue, added, depths', visited', queue')
    requires Elements(queue') <= visited' <= depths'.Keys
    ensures BehindHead(depths', visited', queue')
  {
    forall v | v in visited' && v !in queue' && queue' != [] ensures depths'[v] <= depths'[queue'[0]] {
      TurnLevels(depths, arcs, visited, queue, added, depths', visited', queue', 0);
      assert forall x :: x in added ==> x in queue';
      assert v in visited;
      assert v == queue[0] || v !in queue;
    }
  }

  lemma TurnRelaxes(arcs: set<Arc>, roots: set<string>, depths: map<string, nat>, visited: set<string>,
                    queue: seq<string>, added: seq<string>, depths': map<string, nat>, visited': set<string>,
                    queue': seq<string>)
    requires Levels(arcs, roots, depths, visited, queue)
    requires Turn(arcs, depths, visited, queue, added, depths', visited', queue')
    ensures visited' <= depths'.Keys
    ensures Relaxed(arcs, depths', visited', queue')
  {
    forall a | a in arcs && a.from in visited' && a.from !in queue'
      ensures a.to in visited' && depths'[a.to] <= depths'[a.from] + 1
    {
      assert forall x :: x in added ==> x in queue';
      assert a.from in visited;
      if a.from == queue[0] {
        assert a == Arc(queue[0], a.to);
        if a.to in visited {
          NearHead(arcs, roots, depths, visited, queue, a.to);
        }
      } else {
        assert a.from !in queue;
      }
    }
  }

  lemma TurnWalks(arcs: set<Arc>, roots: set<string>, depths: map<string, nat>, visited: set<string>,
                  queue: seq<string>, added: seq<string>, depths': map<string, nat>, visited': set<string>,
                  queue': seq<string>)
    requires Levels(arcs, roots, depths, visited, queue)
    requires Turn(arcs, depths, visited, queue, added, depths', visited', queue')
    ensures visited' <= depths'.Keys && visited' <= roots + Heads(arcs)
    ensures forall v :: v in visited' ==> WalkOf(arcs, roots, v, depths'[v])
  {
    assert queue[0] in Elements(queue);
    forall v | v in visited' ensures v in roots + Heads(arcs) && WalkOf(arcs, roots, v, depths'[v]) {
      if v !in visited {
        assert Arc(queue[0], v).to in Heads(arcs);
        WalkStep(arcs, roots, queue[0], v, depths[queue[0]]);
      }
    }
  }

  lemma LevelsStep(arcs: set<Arc>, roots: set<string>, depths: map<string, nat>, visited: set<string>,
                   queue: seq<string>, added: seq<string>, depths': map<string, nat>, visited': set<string>,
                   queue': seq<string>)
    requires Levels(arcs, roots, depths, visited, queue)
    requires Turn(arcs, depths, visited, queue, added, depths', visited', queue')
    ensures Levels(arcs, roots, depths', visited', queue')
  {
    TurnOrdered(arcs, roots, depths, visited, queue, added, depths', visited', queue');
    TurnBehind(arcs, roots, depths, visited, queue, added, depths', visited', queue');
    TurnRelaxes(arcs, roots, depths, visited, queue, added, depths', visited', queue');
    TurnWalks(arcs, roots, depths, visited, queue, added, depths', visited', queue');
  }

  lemma {:induction false} NoShorterWalk(arcs: set<Arc>, roots: set<string>, depths: map<string, nat>,
                                         visited: set<string>, p: seq<string>)
    requires Levels(arcs, roots, depths, visited, [])
    requires IsPath(arcs, p) && p[0] in roots
    ensures p[|p| - 1] in visited && depths[p[|p| - 1]] <= |p| - 1
    decreases |p|
  {
    if |p| > 1 {
      var n := |p| - 1;
      Segment(arcs, p, 0, n);
      NoShorterWalk(arcs, roots, depths, visited, p[0..n]);
      assert Linked(arcs, p, n - 1);
    }
  }

  lemma LevelsDone(arcs: set<Arc>, roots: set<string>, depths: map<string, nat>, visited: set<string>)
    requires Levels(arcs, roots, depths, visited, [])
    ensures forall v :: v in visited <==> Reaches(arcs, roots, {}, v)
    ensures forall v :: v in visited ==> IsDistance(arcs, roots, v, depths[v])
  {
    forall v | Reaches(arcs, roots, {}, v) ensures v in visited {
      var p :| PathTo(arcs, roots, {}, v, p);
      NoShorterWalk(arcs, roots, depths, visited, p);
    }
    forall v | v in visited ensures Reaches(arcs, roots, {}, v) && IsDistance(arcs, roots, v, depths[v]) {
      var p :| PathTo(arcs, roots, {}, v, p) && |p| == depths[v] + 1;
      forall q | PathTo(arcs, roots, {}, v, q) ensures |q| >= depths[v] + 1 {
        NoShorterWalk(arcs, roots, depths, visited, q);
      }
    }
  }

  /** The inner loop of the search: successors not seen before join the queue at `level`. */
  method Relax(candidates: seq<string>, level: nat, depths0: map<string, nat>, visited0: set<string>)
    returns (depths: map<string, nat>, visited: set<string>, added: seq<string>)
    ensures visited == visited0 + Elements(candidates)
    ensures Elements(added) == visited - visited0
    ensures depths.Keys == depths0.Keys + (visited - visited0)
    ensures forall v :: v in visited - visited0 ==> depths[v] == level
    ensures forall v :: v in depths0 && v !in visited - visited0 ==> depths[v] == depths0[v]
  {
    depths, visited, added := depths0, visited0, [];
    for i := 0 to |candidates|
      invariant visited == visited0 + Elements(candidates[..i])
      invariant Elements(added) == visited - visited0
      invariant depths.Keys == depths0.Keys + (visited - visited0)
      invariant forall v :: v in visited - visited0 ==> depths[v] == level
      invariant forall v :: v in depths0 && v !in visited - visited0 ==> depths[v] == depths0[v]
    {
      var next := candidates[i];
      assert Elements(candidates[..i + 1]) == Elements(candidates[..i]) + {next};
      if next !in visited {
        assert Elements(added + [next]) == Elements(added) + {next};
        visited := visited + {next};
        depths := depths[next := level];
        added := added + [next];
      }
    }
    assert candidates[..|candidates|] == candidates;
  }

  /** The contract of computeDepths, for any graph and any visiting order. */
  ghost predicate AreDepths(nodes: set<string>, edges: seq<DependencyEdge>, depths: map<string, nat>) {
    var arcs, roots := Arcs(edges), IngressRoots(nodes, edges);
    && nodes <= depths.Keys
    && (forall v :: v in depths && v !in nodes ==> Reaches(arcs, roots, {}, v))
    && (forall v :: Reaches(arcs, roots, {}, v) ==> v in depths && IsDistance(arcs, roots, v, depths[v]))
    && (forall v :: v in nodes && !Reaches(arcs, roots, {}, v) ==> depths[v] == 0)
  }

  ghost predicate Search(nodes: set<string>, edges: seq<DependencyEdge>, depths: map<string, nat>, visited: set<string>,
                         queue: seq<string>) {
    && Levels(Arcs(edges), IngressRoots(nodes, edges), depths, visited, queue)
    && depths.Keys == nodes + visited
    && forall v :: v in nodes && v !in visited ==> depths[v] == 0
  }

  /** What one call of Relax on the head's successors, followed by the queue update, does. */
  ghost predicate Relaxation(arcs: set<Arc>, adj: map<string, seq<string>>, depths: map<string, nat>,
                             visited: set<string>, queue: seq<string>, added: seq<string>, depths': map<string, nat>,
                             visited': set<string>, queue': seq<string>)
  {
    && queue != [] && queue[0] in depths && visited <= depths.Keys
    && IsAdjacency(adj, arcs)
    && visited' == visited + Elements(Successors(adj, queue[0]))
    && queue' == queue[1..] + added && Elements(added) == visited' - visited
    && depths'.Keys == depths.Keys + (visited' - visited)
    && (forall v :: v in visited' - visited ==> depths'[v] == depths[queue[0]] + 1)
    && (forall v :: v in depths && v !in visited' - visited ==> depths'[v] == depths[v])
  }

  lemma TurnHolds(arcs: set<Arc>, adj: map<string, seq<string>>, depths: map<string, nat>, visited: set<string>,
                  queue: seq<string>, added: seq<string>, depths': map<string, nat>, visited': set<string>,
                  queue': seq<string>)
    requires Relaxation(arcs, adj, depths, visited, queue, added, depths', visited', queue')
    ensures Turn(arcs, depths, visited, queue, added, depths', visited', queue')
    ensures visited' == visited ==> |queue'| < |queue|
  {
    assert forall v :: v in added <==> v in Elements(added);
    assert added == [] || added[0] in added;
  }

  lemma SearchRest(nodes: set<string>, arcs: set<Arc>, adj: map<string, seq<string>>, depths: map<string, nat>,
                   visited: set<string>, queue: seq<string>, added: seq<string>, depths': map<string, nat>,
                   visited': set<string>, queue': seq<string>)
    requires depths.Keys == nodes + visited
    requires forall v :: v in nodes && v !in visited ==> depths[v] == 0
    requires Relaxation(arcs, adj, depths, visited, queue, added, depths', visited', queue')
    ensures depths'.Keys == nodes + visited'
    ensures forall v :: v in nodes && v !in visited' ==> depths'[v] == 0
  {
  }

  lemma SearchBounds(nodes: set<string>, edges: seq<DependencyEdge>, depths: map<string, nat>, visited: set<string>,
                     queue: seq<string>)
    requires Search(nodes, edges, depths, visited, queue)
    ensures visited <= depths.Keys && (queue != [] ==> queue[0] in depths)
  {
    assert queue == [] || queue[0] in Elements(queue);
  }

  lemma LevelsBounded(arcs: set<Arc>, roots: set<string>, depths: map<string, nat>, visited: set<string>,
                      queue: seq<string>)
    requires Levels(arcs, roots, depths, visited, queue)
    ensures visited <= roots + Heads(arcs)
  {
  }

  lemma SearchStep(nodes: set<string>, edges: seq<DependencyEdge>, adj: map<string, seq<string>>,
                   depths: map<string, nat>, visited: set<string>, queue: seq<string>, added: seq<string>,
                   depths': map<string, nat>, visited': set<string>, queue': seq<string>)
    requires Search(nodes, edges, depths, visited, queue)
    requires Relaxation(Arcs(edges), adj, depths, visited, queue, added, depths', visited', queue')
    ensures Search(nodes, edges, depths', visited', queue')
    ensures var roots := IngressRoots(nodes, edges);
      || Unseen(Arcs(edges), roots, visited') < Unseen(Arcs(edges), roots, visited)
      || (visited' == visited && |queue'| < |queue|)
  {
    hide Levels, Turn;
    var arcs, roots := Arcs(edges), IngressRoots(nodes, edges);
    TurnHolds(arcs, adj, depths, visited, queue, added, depths', visited', queue');
    LevelsStep(arcs, roots, depths, visited, queue, added, depths', visited', queue');
    SearchRest(nodes, arcs, adj, depths, visited, queue, added, depths', visited', queue');
    LevelsBounded(arcs, roots, depths', visited', queue');
    UnseenShrinks(arcs, roots, visited, visited');
  }

  lemma SearchDone(nodes: set<string>, edges: seq<DependencyEdge>, depths: map<string, nat>, visited: set<string>)
    requires Search(nodes, edges, depths, visited, [])
    ensures AreDepths(nodes, edges, depths)
  {
    LevelsDone(Arcs(edges), IngressRoots(nodes, edges), depths, visited);
  }

  lemma SearchStart(nodes: set<string>, edges: seq<DependencyEdge>, depths: map<string, nat>, queue: seq<string>)
    requires depths.Keys == nodes && forall v :: v in depths ==> depths[v] == 0
    requires Elements(queue) == IngressRoots(nodes, edges)
    ensures Search(nodes, edges, depths, IngressRoots(nodes, edges), queue)
    ensures queue == [] ==> AreDepths(nodes, edges, depths)
  {
    LevelsStart(Arcs(edges), IngressRoots(nodes, edges), depths, queue);
    if queue == [] {
      SearchDone(nodes, edges, depths, {});
    }
  }

  method ComputeDepths(g: DependencyGraph) returns (depths: map<string, nat>)
    ensures AreDepths(g.nodes.Keys, g.edges, depths)
  {
    hide Levels, IsAdjacency, AreDepths, Search;
    ghost var nodes := g.nodes.Keys;
    depths := map name | name in g.nodes.Keys :: 0;
    var roots := FindIngressRoots(g);
    SearchStart(nodes, g.edges, depths, roots);
    if |roots| == 0 {
      return;
    }
    var adj := BuildAdjacency(g.edges);
    var visited := Elements(roots);
    var queue := roots;

    while queue != []
      invariant Search(nodes, g.edges, depths, visited, queue)
      decreases Unseen(Arcs(g.edges), IngressRoots(nodes, g.edges), visited), |queue|
    {
      var curr := queue[0];
      SearchBounds(nodes, g.edges, depths, visited, queue);
      ghost var seen, waiting, levels := visited, queue, depths;
      var added;
      depths, visited, added := Relax(Successors(adj, curr), depths[curr] + 1, depths, visited);
      queue := queue[1..] + added;
      SearchStep(nodes, g.edges, adj, levels, seen, waiting, added, depths, visited, queue);
    }
    SearchDone(nodes, g.edges, depths, visited);
  }
}
