/** Walks in a directed graph: the reference against which every graph loop of the project is proved.

    A service is reached when some walk, starting at a root and never touching a forbidden
    service, ends at it.  Nothing here mentions queues or visited sets. */
module Paths {
  datatype Arc = Arc(from: string, to: string)

  ghost predicate Linked(arcs: set<Arc>, p: seq<string>, i: int)
    requires 0 <= i < |p| - 1
  {
    Arc(p[i], p[i + 1]) in arcs
  }

  ghost predicate IsPath(arcs: set<Arc>, p: seq<string>) {
    |p| > 0 && forall i {:trigger Linked(arcs, p, i)} :: 0 <= i < |p| - 1 ==> Linked(arcs, p, i)
  }

  ghost predicate Avoids(p: seq<string>, avoid: set<string>) {
    forall i :: 0 <= i < |p| ==> p[i] !in avoid
  }

  /** p is a walk from a root to v that stays clear of `avoid`. */
  ghost predicate PathTo(arcs: set<Arc>, roots: set<string>, avoid: set<string>, v: string, p: seq<string>) {
    IsPath(arcs, p) && p[0] in roots && p[|p| - 1] == v && Avoids(p, avoid)
  }

  ghost predicate Reaches(arcs: set<Arc>, roots: set<string>, avoid: set<string>, v: string) {
    exists p :: PathTo(arcs, roots, avoid, v, p)
  }

  lemma ReachesRoot(arcs: set<Arc>, roots: set<string>, avoid: set<string>, r: string)
    requires r in roots && r !in avoid
    ensures Reaches(arcs, roots, avoid, r)
  {
    assert PathTo(arcs, roots, avoid, r, [r]);
  }

  /** A walk may be continued along any walk that starts where it ends. */
  lemma Join(arcs: set<Arc>, p: seq<string>, q: seq<string>)
    requires IsPath(arcs, p) && IsPath(arcs, q) && p[|p| - 1] == q[0]
    ensures IsPath(arcs, p + q[1..])
    ensures (p + q[1..])[|p + q[1..]| - 1] == q[|q| - 1]
  {
    var w := p + q[1..];
    forall i | 0 <= i < |w| - 1 ensures Linked(arcs, w, i) {
      if i < |p| - 1 {
        assert Linked(arcs, p, i);
      } else {
        assert Linked(arcs, q, i - (|p| - 1));
      }
    }
  }

  lemma Segment(arcs: set<Arc>, p: seq<string>, lo: nat, hi: nat)
    requires IsPath(arcs, p) && lo < hi <= |p|
    ensures IsPath(arcs, p[lo..hi])
  {
    forall i | 0 <= i < hi - lo - 1 ensures Linked(arcs, p[lo..hi], i) {
      assert Linked(arcs, p, lo + i);
    }
  }

  lemma ExtendPath(arcs: set<Arc>, roots: set<string>, avoid: set<string>, p: seq<string>, u: string, v: string)
    requires PathTo(arcs, roots, avoid, u, p) && Arc(u, v) in arcs && v !in avoid
    ensures PathTo(arcs, roots, avoid, v, p + [v])
  {
    assert Linked(arcs, [u, v], 0);
    assert [u, v][1..] == [v];
    Join(arcs, p, [u, v]);
  }

  lemma ReachesStep(arcs: set<Arc>, roots: set<string>, avoid: set<string>, u: string, v: string)
    requires Reaches(arcs, roots, avoid, u) && Arc(u, v) in arcs && v !in avoid
    ensures Reaches(arcs, roots, avoid, v)
  {
    var p :| PathTo(arcs, roots, avoid, u, p);
    ExtendPath(arcs, roots, avoid, p, u, v);
  }

  /** A set that holds the allowed roots and is closed under allowed arcs holds everything reached. */
  lemma {:induction false} ClosedHolds(arcs: set<Arc>, roots: set<string>, avoid: set<string>, closed: set<string>,
                                       p: seq<string>)
    requires forall r :: r in roots && r !in avoid ==> r in closed
    requires forall a :: a in arcs && a.from in closed && a.to !in avoid ==> a.to in closed
    requires IsPath(arcs, p) && p[0] in roots && Avoids(p, avoid)
    ensures p[|p| - 1] in closed
    decreases |p|
  {
    if |p| > 1 {
      var n := |p| - 1;
      Segment(arcs, p, 0, n);
      ClosedHolds(arcs, roots, avoid, closed, p[0..n]);
      assert Linked(arcs, p, n - 1);
    }
  }

  /** What a work-queue search has found when its queue runs dry is exactly what walks reach. */
  lemma ClosedIsReached(arcs: set<Arc>, roots: set<string>, avoid: set<string>, closed: set<string>)
    requires forall r :: r in roots && r !in avoid ==> r in closed
    requires forall a :: a in arcs && a.from in closed && a.to !in avoid ==> a.to in closed
    requires forall v :: v in closed ==> Reaches(arcs, roots, avoid, v)
    ensures forall v :: v in closed <==> Reaches(arcs, roots, avoid, v)
  {
    forall v | Reaches(arcs, roots, avoid, v) ensures v in closed {
      var p :| PathTo(arcs, roots, avoid, v, p);
      ClosedHolds(arcs, roots, avoid, closed, p);
    }
  }

  /** Every service on a walk from a root is a root or the head of an arc. */
  lemma OnPath(arcs: set<Arc>, roots: set<string>, p: seq<string>, i: nat)
    requires IsPath(arcs, p) && p[0] in roots && i < |p|
    ensures p[i] in roots || exists a :: a in arcs && a.to == p[i]
  {
    if i > 0 {
      assert Linked(arcs, p, i - 1);
      assert Arc(p[i - 1], p[i]) in arcs;
    }
  }
}
