/** The contract of Go's sort package: some permutation in which no later element precedes an earlier one.

    sort.Slice is not stable and its algorithm is not part of this model, so callers see only that contract. */
module Sorting {
  ghost predicate TotalPreorder<T(!new)>(leq: (T, T) -> bool) {
    && (forall x, y :: leq(x, y) || leq(y, x))
    && (forall x, y, z :: leq(x, y) && leq(y, z) ==> leq(x, z))
  }

  ghost predicate SortedBy<T>(s: seq<T>, leq: (T, T) -> bool) {
    forall i, j :: 0 <= i < j < |s| ==> leq(s[i], s[j])
  }

  /** r is a rearrangement of s. */
  ghost predicate Permuted<T>(s: seq<T>, r: seq<T>) {
    multiset(s) == multiset(r)
  }

  /** r is `s` rearranged into the given order. */
  ghost predicate IsSorting<T>(s: seq<T>, r: seq<T>, leq: (T, T) -> bool) {
    Permuted(s, r) && SortedBy(r, leq)
  }

  function Insert<T(!new)>(s: seq<T>, x: T, leq: (T, T) -> bool): (r: seq<T>)
    ensures multiset(r) == multiset(s) + multiset{x}
  {
    if s == [] then [x]
    else if leq(x, s[0]) then
      [x] + s
    else
      assert s == [s[0]] + s[1..];
      [s[0]] + Insert(s[1..], x, leq)
  }

  lemma {:induction false} InsertSorted<T(!new)>(s: seq<T>, x: T, leq: (T, T) -> bool)
    requires TotalPreorder(leq) && SortedBy(s, leq)
    ensures SortedBy(Insert(s, x, leq), leq)
  {
    if s != [] && !leq(x, s[0]) {
      var tail := Insert(s[1..], x, leq);
      InsertSorted(s[1..], x, leq);
      forall i | 0 <= i < |tail| ensures leq(s[0], tail[i]) {
        assert tail[i] in multiset(tail);
        assert tail[i] in s[1..] || tail[i] == x;
      }
    }
  }

  function InsertionSort<T(!new)>(s: seq<T>, leq: (T, T) -> bool): (r: seq<T>)
    ensures multiset(r) == multiset(s)
  {
    if s == [] then []
    else
      assert s == [s[0]] + s[1..];
      Insert(InsertionSort(s[1..], leq), s[0], leq)
  }

  lemma {:induction false} InsertionSortSorts<T(!new)>(s: seq<T>, leq: (T, T) -> bool)
    requires TotalPreorder(leq)
    ensures IsSorting(s, InsertionSort(s, leq), leq)
  {
    if s != [] {
      InsertionSortSorts(s[1..], leq);
      InsertSorted(InsertionSort(s[1..], leq), s[0], leq);
    }
  }

  method Sort<T(!new)>(s: seq<T>, leq: (T, T) -> bool) returns (r: seq<T>)
    requires TotalPreorder(leq)
    ensures IsSorting(s, r, leq)
  {
    InsertionSortSorts(s, leq);
    r := InsertionSort(s, leq);
  }

  lemma SameElements<T>(s: seq<T>, r: seq<T>)
    requires Permuted(s, r)
    ensures |s| == |r| && forall x :: x in s <==> x in r
  {
    assert |multiset(s)| == |multiset(r)|;
    forall x ensures x in s <==> x in r {
      assert x in s <==> x in multiset(s);
      assert x in r <==> x in multiset(r);
    }
  }

  /** Taking one occurrence of x out of both sides keeps them rearrangements of each other. */
  lemma DropCommon<T>(s: seq<T>, r: seq<T>, i: nat)
    requires s != [] && i < |r| && r[i] == s[0] && Permuted(s, r)
    ensures Permuted(s[1..], r[..i] + r[i + 1..])
  {
    var rest := r[..i] + r[i + 1..];
    assert s == [s[0]] + s[1..];
    assert multiset(s) == multiset(s[1..]) + multiset{s[0]};
    assert r == r[..i] + [r[i]] + r[i + 1..];
    assert multiset(rest) == multiset(r[..i]) + multiset(r[i + 1..]);
    assert multiset(r) == multiset(rest) + multiset{r[i]};
    assert multiset(s[1..]) == multiset(s) - multiset{s[0]};
    assert multiset(rest) == multiset(r) - multiset{r[i]};
  }

  lemma SameHead<T(!new)>(a: seq<T>, b: seq<T>, leq: (T, T) -> bool)
    requires Permuted(a, b) && SortedBy(a, leq) && SortedBy(b, leq)
    requires forall x, y :: x in a && y in a && leq(x, y) && leq(y, x) ==> x == y
    ensures |a| == |b| && (a != [] ==> a[0] == b[0])
  {
    SameElements(a, b);
    if a != [] {
      assert b[0] in a && a[0] in b;
      var i :| 0 <= i < |a| && a[i] == b[0];
      var j :| 0 <= j < |b| && b[j] == a[0];
    }
  }

  /** With no two elements tied, there is only one sorted arrangement. */
  lemma {:induction false} SortingUnique<T(!new)>(a: seq<T>, b: seq<T>, leq: (T, T) -> bool)
    requires Permuted(a, b) && SortedBy(a, leq) && SortedBy(b, leq)
    requires forall x, y :: x in a && y in a && leq(x, y) && leq(y, x) ==> x == y
    ensures a == b
  {
    hide Permuted;
    SameHead(a, b, leq);
    if a != [] {
      DropCommon(a, b, 0);
      assert b[..0] + b[0 + 1..] == b[1..];
      SortingUnique(a[1..], b[1..], leq);
      assert a == [a[0]] + a[1..] && b == [b[0]] + b[1..];
    }
  }

  ghost predicate NoRepeats<T(!new)>(s: seq<T>) {
    forall i, j :: 0 <= i < j < |s| ==> s[i] != s[j]
  }

  /** The keys of a map in some order: Go's map iteration. */
  method ListKeys<T(==, !new)>(keys: set<T>) returns (listed: seq<T>)
    ensures NoRepeats(listed)
    ensures forall k :: k in keys <==> k in listed
  {
    listed := [];
    var pending := keys;
    while pending != {}
      invariant pending <= keys
      invariant forall k :: k in listed <==> k in keys && k !in pending
      invariant NoRepeats(listed)
    {
      var k :| k in pending;
      pending := pending - {k};
      listed := listed + [k];
    }
  }

  function MapSeq<T, U>(s: seq<T>, f: T -> U): (r: seq<U>)
    ensures |r| == |s| && forall i :: 0 <= i < |s| ==> r[i] == f(s[i])
  {
    seq(|s|, i requires 0 <= i < |s| => f(s[i]))
  }

  /** Rearranging commutes with mapping. */
  lemma {:induction false} MapPermuted<T(!new), U>(a: seq<T>, b: seq<T>, f: T -> U)
    requires Permuted(a, b)
    ensures Permuted(MapSeq(a, f), MapSeq(b, f))
  {
    hide Permuted;
    SameElements(a, b);
    if a == [] {
      PermutedSelf(MapSeq(a, f));
      assert MapSeq(a, f) == MapSeq(b, f);
    } else {
      assert a[0] in b;
      var i :| 0 <= i < |b| && b[i] == a[0];
      var rest := b[..i] + b[i + 1..];
      DropCommon(a, b, i);
      MapPermuted(a[1..], rest, f);
      assert MapSeq(a, f) == [f(a[0])] + MapSeq(a[1..], f);
      MapSplice(b, i, f);
      AddCommon(MapSeq(a[1..], f), MapSeq(rest, f), f(a[0]), i);
    }
  }

  lemma MapSplice<T, U>(b: seq<T>, i: nat, f: T -> U)
    requires i < |b|
    ensures var mr := MapSeq(b[..i] + b[i + 1..], f); i <= |mr| && MapSeq(b, f) == mr[..i] + [f(b[i])] + mr[i..]
  {
  }

  lemma PermutedSelf<T>(s: seq<T>)
    ensures Permuted(s, s)
  {
  }

  lemma AddCommon<T>(s: seq<T>, r: seq<T>, x: T, i: nat)
    requires Permuted(s, r) && i <= |r|
    ensures Permuted([x] + s, r[..i] + [x] + r[i..])
  {
    assert r == r[..i] + r[i..];
  }
}
