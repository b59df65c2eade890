/** internal/graph/graph.go: the service topology, mutated by AddNode and AddEdge. */
module DependencyGraphs {
  import opened Paths

  datatype ServiceNode = ServiceNode(name: string, metadata: map<string, string>)

  datatype DependencyEdge = DependencyEdge(from: string, to: string, callCount: int, frequency: real)

  function Arcs(edges: seq<DependencyEdge>): set<Arc> {
    set e | e in edges :: Arc(e.from, e.to)
  }

  /** Number of edges into a service; parallel edges count separately. */
  function EdgesInto(edges: seq<DependencyEdge>, service: string): nat {
    if edges == [] then 0
    else EdgesInto(edges[..|edges| - 1], service) + (if edges[|edges| - 1].to == service then 1 else 0)
  }

  function EdgesOutOf(edges: seq<DependencyEdge>, service: string): nat {
    if edges == [] then 0
    else EdgesOutOf(edges[..|edges| - 1], service) + (if edges[|edges| - 1].from == service then 1 else 0)
  }

  lemma {:induction false} NoEdgesInto(edges: seq<DependencyEdge>, service: string)
    ensures EdgesInto(edges, service) == 0 <==> forall a :: a in Arcs(edges) ==> a.to != service
  {
    if edges != [] {
      var init, last := edges[..|edges| - 1], edges[|edges| - 1];
      NoEdgesInto(init, service);
      assert edges == init + [last];
      assert Arcs(edges) == Arcs(init) + {Arc(last.from, last.to)};
    }
  }

  class DependencyGraph {
    var nodes: map<string, ServiceNode>
    var edges: seq<DependencyEdge>

    /** The promise of AddEdge: both ends of every edge are nodes, and a node is filed under its own name. */
    ghost predicate Valid()
      reads this
    {
      && (forall e :: e in edges ==> e.from in nodes && e.to in nodes)
      && (forall n :: n in nodes ==> nodes[n].name == n)
    }

    constructor ()
      ensures Valid() && nodes == map[] && edges == []
    {
      nodes, edges := map[], [];
    }

    method AddNode(name: string, metadata: map<string, string>) returns (node: ServiceNode)
      requires Valid()
      modifies this`nodes
      ensures Valid() && name in nodes && node == nodes[name]
      ensures node == if name in old(nodes) then old(nodes)[name] else ServiceNode(name, metadata)
      ensures nodes == old(nodes)[name := node]
    {
      if name in nodes {
        return nodes[name];
      }
      node := ServiceNode(name, metadata);
      nodes := nodes[name := node];
    }

    method AddEdge(edge: DependencyEdge)
      requires Valid()
      modifies this
      ensures Valid() && edges == old(edges) + [edge]
      ensures nodes.Keys == old(nodes).Keys + {edge.from, edge.to}
      ensures forall n :: n in old(nodes) ==> nodes[n] == old(nodes)[n]
    {
      var from := AddNode(edge.from, map[]);
      var to := AddNode(edge.to, map[]);
      edges := edges + [edge];
    }

    method InDegree(service: string) returns (count: nat)
      ensures count == EdgesInto(edges, service)
    {
      count := 0;
      for i := 0 to |edges|
        invariant count == EdgesInto(edges[..i], service)
      {
        assert edges[..i + 1][..i] == edges[..i];
        if edges[i].to == service {
          count := count + 1;
        }
      }
      assert edges[..|edges|] == edges;
    }

    method OutDegree(service: string) returns (count: nat)
      ensures count == EdgesOutOf(edges, service)
    {
      count := 0;
      for i := 0 to |edges|
        invariant count == EdgesOutOf(edges[..i], service)
      {
        assert edges[..i + 1][..i] == edges[..i];
        if edges[i].from == service {
          count := count + 1;
        }
      }
      assert edges[..|edges|] == edges;
    }
  }
}
