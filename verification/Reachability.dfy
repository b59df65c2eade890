/** internal/graph/scoring.go: the two work-queue searches and the ingress roots they start from. */
module Reachability {
  import opened Paths
  import opened DependencyGraphs

  function Elements(s: seq<string>): set<string> {
    set x | x in s
  }

  function Successors(adj: map<string, seq<string>>, u: string): seq<string> {
    if u in adj then adj[u] else []
  }

  ghost predicate IsAdjacency(adj: map<string, seq<string>>, arcs: set<Arc>) {
    forall u, v :: v in Successors(adj, u) <==> Arc(u, v) in arcs
  }

  /** The adjacency list both searches build first. */
  method BuildAdjacency(edges: seq<DependencyEdge>) returns (adj: map<string, seq<string>>)
    ensures IsAdjacency(adj, Arcs(edges))
  {
    adj := map[];
    for i := 0 to |edges|
      invariant IsAdjacency(adj, Arcs(edges[..i]))
    {
      var edge := edges[i];
      assert Arcs(edges[..i + 1]) == Arcs(edges[..i]) + {Arc(edge.from, edge.to)};
      ghost var before := adj;
      adj := adj[edge.from := Successors(adj, edge.from) + [edge.to]];
      forall u, v ensures v in Successors(adj, u) <==> Arc(u, v) in Arcs(edges[..i + 1]) {
        assert v in Successors(before, u) <==> Arc(u, v) in Arcs(edges[..i]);
      }
    }
    assert edges[..|edges|] == edges;
  }

  ghost function Heads(arcs: set<Arc>): set<string> {
    set a | a in arcs :: a.to
  }

  /** The search frontier: every visited service outside the queue has its allowed successors visited. */
  ghost predicate Expanded(arcs: set<Arc>, avoid: set<string>, visited: set<string>, queue: seq<string>) {
    forall a {:trigger a in arcs} :: a in arcs && a.from in visited && a.from !in queue && a.to !in avoid ==>
        a.to in visited
  }

  ghost predicate Sound(arcs: set<Arc>, roots: set<string>, avoid: set<string>, visited: set<string>) {
    forall v :: v in visited ==> Reaches(arcs, roots, avoid, v)
  }

  ghost predicate Frontier(arcs: set<Arc>, roots: set<string>, avoid: set<string>, visited: set<string>,
                           queue: seq<string>) {
    && visited <= roots + Heads(arcs)
    && Elements(queue) <= visited
    && (forall r :: r in roots && r !in avoid ==> r in visited)
    && Sound(arcs, roots, avoid, visited)
    && Expanded(arcs, avoid, visited, queue)
  }

  /** Marks and appends, in order, the candidates not seen before and not to be avoided. */
  method Enqueue(candidates: seq<string>, avoid: set<string>, visited0: set<string>, queue0: seq<string>)
    returns (visited: set<string>, queue: seq<string>)
    ensures visited == visited0 + (Elements(candidates) - avoid)
    ensures Elements(queue) == Elements(queue0) + (visited - visited0)
    ensures visited == visited0 ==> queue == queue0
  {
    visited, queue := visited0, queue0;
    for i := 0 to |candidates|
      invariant visited == visited0 + (Elements(candidates[..i]) - avoid)
      invariant Elements(queue) == Elements(queue0) + (visited - visited0)
      invariant visited == visited0 ==> queue == queue0
    {
      var next := candidates[i];
      assert Elements(candidates[..i + 1]) == Elements(candidates[..i]) + {next};
      if next !in avoid && next !in visited {
        assert Elements(queue + [next]) == Elements(queue) + {next};
        visited := visited + {next};
        queue := queue + [next];
      }
    }
    assert candidates[..|candidates|] == candidates;
  }

  lemma FrontierStart(arcs: set<Arc>, roots: set<string>, avoid: set<string>, queue: seq<string>)
    requires Elements(queue) == roots - avoid
    ensures Frontier(arcs, roots, avoid, roots - avoid, queue)
  {
    forall v | v in roots - avoid ensures Reaches(arcs, roots, avoid, v) {
      ReachesRoot(arcs, roots, avoid, v);
    }
  }

  /** One turn of the search loop: take `curr` off the queue and add its unseen successors. */
  lemma FrontierStep(arcs: set<Arc>, roots: set<string>, avoid: set<string>, visited: set<string>, queue: seq<string>,
                     nexts: set<string>, visited': set<string>, queue': seq<string>)
    requires queue != [] && Frontier(arcs, roots, avoid, visited, queue)
    requires forall v :: v in nexts <==> Arc(queue[0], v) in arcs
    requires visited' == visited + (nexts - avoid)
    requires Elements(queue') == Elements(queue[1..]) + (visited' - visited)
    ensures Frontier(arcs, roots, avoid, visited', queue')
  {
    var curr := queue[0];
    assert queue == [curr] + queue[1..];
    assert forall x :: x in queue' <==> x in Elements(queue');
    forall v | v in visited' && v !in visited ensures Reaches(arcs, roots, avoid, v) && v in roots + Heads(arcs) {
      ReachesStep(arcs, roots, avoid, curr, v);
      assert Arc(curr, v).to in Heads(arcs);
    }
    forall a | a in arcs && a.from in visited' && a.from !in queue' && a.to !in avoid ensures a.to in visited' {
      if a.from == curr {
        assert a == Arc(curr, a.to);
      } else {
        assert a.from !in Elements(queue');
        assert a.from in visited && a.from !in queue;
      }
    }
  }

  ghost function Unseen(arcs: set<Arc>, roots: set<string>, visited: set<string>): nat {
    |roots + Heads(arcs) - visited|
  }

  lemma UnseenShrinks(arcs: set<Arc>, roots: set<string>, visited: set<string>, visited': set<string>)
    requires visited <= visited' <= roots + Heads(arcs)
    ensures visited' == visited || Unseen(arcs, roots, visited') < Unseen(arcs, roots, visited)
  {
    if x :| x in visited' && x !in visited {
      SmallerSet(roots + Heads(arcs) - visited', roots + Heads(arcs) - visited);
    }
  }

  lemma FrontierDone(arcs: set<Arc>, roots: set<string>, avoid: set<string>, visited: set<string>)
    requires Frontier(arcs, roots, avoid, visited, [])
    ensures forall v :: v in visited <==> Reaches(arcs, roots, avoid, v)
  {
    ClosedIsReached(arcs, roots, avoid, visited);
  }

  /** getReachableNodes: breadth-first search from the roots that skips one service. */
  method GetReachableNodes(g: DependencyGraph, roots: seq<string>, exclude: string) returns (visited: set<string>)
    ensures forall v :: v in visited <==> Reaches(Arcs(g.edges), Elements(roots), {exclude}, v)
  {
    ghost var arcs, rootSet, avoid := Arcs(g.edges), Elements(roots), {exclude};
    var queue: seq<string>;
    var adj := BuildAdjacency(g.edges);
    visited, queue := Enqueue(roots, {exclude}, {}, []);
    FrontierStart(arcs, rootSet, avoid, queue);

    while queue != []
      invariant Frontier(arcs, rootSet, avoid, visited, queue)
      decreases Unseen(arcs, rootSet, visited), |queue|
    {
      var curr := queue[0];
      ghost var seen, waiting := visited, queue;
      visited, queue := Enqueue(Successors(adj, curr), {exclude}, visited, queue[1..]);
      FrontierStep(arcs, rootSet, avoid, seen, waiting, Elements(Successors(adj, curr)), visited, queue);
      UnseenShrinks(arcs, rootSet, seen, visited);
    }
    FrontierDone(arcs, rootSet, avoid, visited);
  }

  /** The services nothing calls. */
  function IngressRoots(nodes: set<string>, edges: seq<DependencyEdge>): set<string> {
    set n | n in nodes && EdgesInto(edges, n) == 0
  }

  method FindIngressRoots(g: DependencyGraph) returns (roots: seq<string>)
    ensures Elements(roots) == IngressRoots(g.nodes.Keys, g.edges)
  {
    roots := [];
    var pending := g.nodes.Keys;
    while pending != {}
      invariant pending <= g.nodes.Keys
      invariant Elements(roots) == IngressRoots(g.nodes.Keys - pending, g.edges)
    {
      var name :| name in pending;
      pending := pending - {name};
      var degree := g.InDegree(name);
      if degree == 0 {
        assert Elements(roots + [name]) == Elements(roots) + {name};
        roots := roots + [name];
      }
    }
    assert g.nodes.Keys - {} == g.nodes.Keys;
  }

  lemma SmallerSet<T>(a: set<T>, b: set<T>)
    requires a < b
    ensures |a| < |b|
  {
    var x :| x in b && x !in a;
    assert a <= b - {x};
    SubsetSize(a, b - {x});
  }

  lemma {:induction false} SubsetSize<T>(a: set<T>, b: set<T>)
    requires a <= b
    ensures |a| <= |b|
  {
    if a != {} {
      var x :| x in a;
      SubsetSize(a - {x}, b - {x});
    }
  }
}
