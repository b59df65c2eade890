/** Isolation, as identifySPOFs reports it, orders the services that can break a mesh. */
module SpofOrder {
  import opened Paths
  import opened DependencyGraphs
  import opened Reachability
  import opened Spof

  /** First position of x on p. */
  lemma {:induction false} FirstOn(p: seq<string>, x: string) returns (i: nat)
    requires x in p
    ensures i < |p| && p[i] == x && x !in p[..i]
  {
    if p[0] == x {
      i := 0;
    } else {
      var k := FirstOn(p[1..], x);
      i := k + 1;
      assert p[..i] == [p[0]] + p[1..][..k];
    }
  }

  /** Last position on p that holds a or b. */
  lemma {:induction false} LastOf(p: seq<string>, a: string, b: string) returns (i: nat)
    requires a in p || b in p
    ensures i < |p| && (p[i] == a || p[i] == b) && a !in p[i + 1..] && b !in p[i + 1..]
  {
    var n := |p| - 1;
    if p[n] == a || p[n] == b {
      i := n;
    } else {
      i := LastOf(p[..n], a, b);
      assert p[i + 1..] == p[..n][i + 1..] + [p[n]];
    }
  }

  lemma PathPrefix(arcs: set<Arc>, roots: set<string>, v: string, p: seq<string>, i: nat)
    requires PathTo(arcs, roots, {}, v, p) && i < |p|
    ensures PathTo(arcs, roots, {}, p[i], p[..i + 1])
  {
    Segment(arcs, p, 0, i + 1);
    assert p[0..i + 1] == p[..i + 1];
  }

  lemma GuardsCompose(arcs: set<Arc>, roots: set<string>, a: string, b: string, v: string)
    requires Guards(arcs, roots, a, b) && Guards(arcs, roots, b, v)
    ensures Guards(arcs, roots, a, v)
  {
    forall p | PathTo(arcs, roots, {}, v, p) ensures a in p {
      var i := FirstOn(p, b);
      PathPrefix(arcs, roots, v, p, i);
      assert p == p[..i + 1] + p[i + 1..];
    }
  }

  /** Two services cannot stand guard over one another. */
  lemma GuardsAsymmetric(arcs: set<Arc>, roots: set<string>, a: string, b: string)
    requires a != b && Reaches(arcs, roots, {}, b)
    requires Guards(arcs, roots, a, b)
    ensures !Guards(arcs, roots, b, a)
  {
    var p :| PathTo(arcs, roots, {}, b, p);
    var i := FirstOn(p, b);
    PathPrefix(arcs, roots, b, p, i);
    assert p[..i + 1] == p[..i] + [b];
    assert a in p[..i];
    var k := FirstOn(p[..i], a);
    PathPrefix(arcs, roots, b, p, k);
    assert p[..k + 1] == p[..i][..k] + [a];
    assert b !in p[..k + 1];
  }

  /** "c isolates v" is a strict partial order. */
  lemma IsolationIsStrictOrder(arcs: set<Arc>, roots: set<string>, a: string, b: string, c: string)
    ensures !Isolates(arcs, roots, {}, a, a)
    ensures Isolates(arcs, roots, {}, a, b) ==> !Isolates(arcs, roots, {}, b, a)
    ensures Isolates(arcs, roots, {}, a, b) && Isolates(arcs, roots, {}, b, c) ==> Isolates(arcs, roots, {}, a, c)
  {
    if Isolates(arcs, roots, {}, a, b) {
      GuardsAsymmetric(arcs, roots, a, b);
      if Isolates(arcs, roots, {}, b, c) {
        GuardsCompose(arcs, roots, a, b, c);
      }
    }
  }

  /** When b is the last of a and b on a walk to v, and b can be reached around a, then so can v. */
  lemma AroundIsolator(arcs: set<Arc>, roots: set<string>, a: string, b: string, v: string, p: seq<string>, i: nat)
    requires PathTo(arcs, roots, {}, v, p) && i < |p| && p[i] == b && a !in p[i + 1..]
    requires a != b && Guards(arcs, roots, a, v)
    ensures Guards(arcs, roots, a, b)
  {
    forall q | PathTo(arcs, roots, {}, b, q) ensures a in q {
      Segment(arcs, p, i, |p|);
      assert p[i..|p|] == p[i..];
      assert p[i..][1..] == p[i + 1..];
      Join(arcs, q, p[i..]);
      assert PathTo(arcs, roots, {}, v, q + p[i + 1..]);
    }
  }

  /** All isolators of one service are pairwise ordered: they form a chain. */
  lemma IsolatorsFormChain(arcs: set<Arc>, roots: set<string>, a: string, b: string, v: string)
    requires Isolates(arcs, roots, {}, a, v) && Isolates(arcs, roots, {}, b, v) && a != b
    ensures Isolates(arcs, roots, {}, a, b) || Isolates(arcs, roots, {}, b, a)
  {
    var p :| PathTo(arcs, roots, {}, v, p);
    var i := LastOf(p, a, b);
    PathPrefix(arcs, roots, v, p, i);
    assert Reaches(arcs, roots, {}, p[i]);
    if p[i] == b {
      AroundIsolator(arcs, roots, a, b, v, p, i);
    } else {
      AroundIsolator(arcs, roots, b, a, v, p, i);
    }
  }

  lemma EmptyIsolatesNothing(edges: seq<DependencyEdge>, roots: set<string>, v: string)
    requires forall e :: e in edges ==> e.from != ""
    ensures !Isolates(Arcs(edges), roots, {}, "", v)
  {
    var arcs := Arcs(edges);
    if v != "" && Reaches(arcs, roots, {}, v) {
      var p :| PathTo(arcs, roots, {}, v, p);
      forall i | 0 <= i < |p| ensures p[i] != "" {
        if i < |p| - 1 {
          assert Linked(arcs, p, i);
        }
      }
    }
  }

  /** The same two facts about the lists identifySPOFs returns for any mesh BuildGraph can build. */
  lemma ReportedIsolationIsOrdered(nodes: set<string>, edges: seq<DependencyEdge>, isSPOF: map<string, bool>,
                                   isolatedMap: map<string, seq<string>>, a: string, b: string, v: string)
    requires forall e :: e in edges ==> e.from in nodes && e.to in nodes && e.from != ""
    requires a in nodes && b in nodes && AreSpofs(nodes, edges, isSPOF, isolatedMap)
    ensures a !in isolatedMap[a]
    ensures b in isolatedMap[a] ==> a !in isolatedMap[b]
    ensures b in isolatedMap[a] && v in isolatedMap[b] ==> v in isolatedMap[a]
    ensures a != b && v in isolatedMap[a] && v in isolatedMap[b] ==> b in isolatedMap[a] || a in isolatedMap[b]
  {
    hide Isolates, Judged;
    var arcs, roots := Arcs(edges), IngressRoots(nodes, edges);
    SpofIsDominationButForEmpty(nodes, edges, isSPOF, isolatedMap);
    IsolationIsStrictOrder(arcs, roots, a, b, v);
    assert forall c, w :: c in nodes ==> (w in isolatedMap[c] <==> w != "" && Severs(nodes, edges, c, w));
    if a != b && v in isolatedMap[a] && v in isolatedMap[b] {
      EmptyIsolatesNothing(edges, roots, v);
      IsolatorsFormChain(arcs, roots, a, b, v);
    }
  }
}
