/** Bounded heaps: a heap that keeps at most `limit` candidates and gives up its worst one
    for a better one always holds the best of everything it was offered. */
module BoundedHeap {
  import opened Sorting

  /** Different members of `all` never tie. */
  ghost predicate NoTies<T(!new)>(less: Order<T>, all: multiset<T>) {
    forall a, b :: a in all && b in all && a != b ==> less(a, b) || less(b, a)
  }

  /** `kept` holds the `limit` best of `all`, or all of them if there are fewer. */
  ghost predicate Best<T(!new)>(less: Order<T>, kept: multiset<T>, all: multiset<T>, limit: nat) {
    && kept <= all
    && |kept| == (if |all| <= limit then |all| else limit)
    && forall x, y :: x in kept && y in all - kept ==> !less(y, x)
  }

  predicate IsWorst<T(==, !new)>(less: Order<T>, heap: multiset<T>, worst: T) {
    worst in heap && forall x :: x in heap ==> !less(worst, x)
  }

  lemma {:induction false} WorstExists<T(!new)>(less: Order<T>, heap: multiset<T>) returns (worst: T)
    requires StrictWeak(less) && heap != multiset{}
    ensures IsWorst(less, heap, worst)
    decreases |heap|
  {
    var x :| x in heap;
    var rest := heap - multiset{x};
    if rest == multiset{} {
      worst := x;
      assert forall y :: y in heap ==> y == x || y in rest;
    } else {
      var w := WorstExists(less, rest);
      worst := if less(w, x) then x else w;
      forall y | y in heap ensures !less(worst, y) {
        assert y == x || y in rest;
      }
    }
  }

  lemma StartsBest<T(!new)>(less: Order<T>, limit: nat)
    ensures Best(less, multiset{}, multiset{}, limit)
  {
  }

  /** A heap that is not full holds everything. */
  lemma AddKeepsBest<T(!new)>(less: Order<T>, heap: multiset<T>, all: multiset<T>, c: T, limit: nat)
    requires Best(less, heap, all, limit) && |heap| < limit
    ensures Best(less, heap + multiset{c}, all + multiset{c}, limit)
  {
    assert all == heap + (all - heap) && |all - heap| == 0;
    assert heap == all;
  }

  lemma SwapKeepsBest<T(!new)>(less: Order<T>, heap: multiset<T>, all: multiset<T>, c: T, worst: T, limit: nat)
    requires StrictWeak(less) && Best(less, heap, all, limit) && |heap| == limit && IsWorst(less, heap, worst)
    requires less(c, worst)
    ensures Best(less, heap - multiset{worst} + multiset{c}, all + multiset{c}, limit)
  {
    var kept, rest := heap - multiset{worst} + multiset{c}, all - heap;
    assert all + multiset{c} - kept == rest + multiset{worst};
    assert |kept| == limit;
    assert all == heap + rest && |all| == |heap| + |rest|;
    forall x, y | x in kept && y in rest + multiset{worst} ensures !less(y, x) {
      assert x == c || x in heap;
      assert y == worst || y in rest;
      if y in rest { assert !less(y, worst); }
    }
  }

  lemma RefusalKeepsBest<T(!new)>(less: Order<T>, heap: multiset<T>, all: multiset<T>, c: T, limit: nat)
    requires StrictWeak(less) && Best(less, heap, all, limit) && |heap| == limit
    requires heap != multiset{} ==> exists worst :: IsWorst(less, heap, worst) && !less(c, worst)
    ensures Best(less, heap, all + multiset{c}, limit)
  {
    var rest := all - heap;
    assert all == heap + rest && |all| == |heap| + |rest|;
    assert all + multiset{c} - heap == rest + multiset{c};
    forall x, y | x in heap && y in rest + multiset{c} ensures !less(y, x) {
      var worst :| IsWorst(less, heap, worst) && !less(c, worst);
      assert y == c || y in rest;
    }
  }

  lemma BestIsBounded<T(!new)>(less: Order<T>, heap: multiset<T>, all: multiset<T>, limit: nat)
    requires Best(less, heap, all, limit)
    ensures |heap| <= limit
  {
  }

  /** Offers one more candidate. The heap's order puts its worst member on top. */
  method PushBounded<T(==, !new)>(less: Order<T>, heap: multiset<T>, candidate: T, limit: nat, ghost all: multiset<T>)
    returns (heap': multiset<T>)
    requires StrictWeak(less) && Best(less, heap, all, limit)
    ensures Best(less, heap', all + multiset{candidate}, limit)
  {
    hide Best;
    BestIsBounded(less, heap, all, limit);
    heap' := heap;
    var better := false;
    if heap != multiset{} {
      ghost var w := WorstExists(less, heap);
      var worst :| worst in heap && IsWorst(less, heap, worst);
      better := less(candidate, worst);
      if |heap| == limit && better {
        SwapKeepsBest(less, heap, all, candidate, worst, limit);
        heap' := heap' - multiset{worst};
      }
    }
    if |heap| < limit || better {
      if |heap| < limit { AddKeepsBest(less, heap, all, candidate, limit); }
      heap' := heap' + multiset{candidate};
    } else {
      RefusalKeepsBest(less, heap, all, candidate, limit);
    }
  }

  /** Without ties the best are determined, so that neither the order of the offers nor the
      way they are batched matters. */
  lemma UniqueWithoutTies<T(!new)>(less: Order<T>, a: multiset<T>, b: multiset<T>, all: multiset<T>, limit: nat)
    requires NoTies(less, all) && Best(less, a, all, limit) && Best(less, b, all, limit)
    ensures a == b
  {
    if forall x :: a[x] <= b[x] {
      SameIfBelow(a, b);
    } else if forall x :: b[x] <= a[x] {
      SameIfBelow(b, a);
    } else {
      var x :| a[x] > b[x];
      var y :| b[y] > a[y];
      NeitherIsBetter(less, a, b, all, limit, x, y);
    }
  }

  lemma SameIfBelow<T(!new)>(a: multiset<T>, b: multiset<T>)
    requires |a| == |b| && forall x :: a[x] <= b[x]
    ensures a == b
  {
    assert b == a + (b - a) && |b| == |a| + |b - a|;
    assert b - a == multiset{};
  }

  lemma NeitherIsBetter<T(!new)>(less: Order<T>, a: multiset<T>, b: multiset<T>, all: multiset<T>, limit: nat, x: T,
                                 y: T)
    requires Best(less, a, all, limit) && Best(less, b, all, limit) && a[x] > b[x] && b[y] > a[y]
    ensures !less(x, y) && !less(y, x) && x != y
  {
    assert x in a && y in b && (all - b)[x] > 0 && (all - a)[y] > 0;
  }
}
