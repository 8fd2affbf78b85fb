/** Orders, sorted sequences, and the stable sort. */
module Sorting {

  type Order<!T> = (T, T) -> bool

  /** A strict order in which ties are allowed. */
  ghost predicate StrictWeak<T(!new)>(less: Order<T>) {
    && (forall a :: !less(a, a))
    && (forall a, b, c :: less(a, b) && less(b, c) ==> less(a, c))
    && (forall a, b, c :: less(a, c) ==> less(a, b) || less(b, c))
  }

  ghost predicate Sorted<T>(less: Order<T>, xs: seq<T>) {
    forall i, j :: 0 <= i < j < |xs| ==> !less(xs[j], xs[i])
  }

  ghost predicate Increasing<T>(less: Order<T>, xs: seq<T>) {
    forall i, j :: 0 <= i < j < |xs| ==> less(xs[i], xs[j])
  }

  function Insert<T>(less: Order<T>, x: T, xs: seq<T>): seq<T> {
    if xs == [] || !less(xs[0], x) then [x] + xs else [xs[0]] + Insert(less, x, xs[1..])
  }

  /** The stable sort. */
  function Sort<T>(less: Order<T>, xs: seq<T>): seq<T> {
    if xs == [] then [] else Insert(less, xs[0], Sort(less, xs[1..]))
  }

  lemma {:induction false} InsertKeeps<T(!new)>(less: Order<T>, x: T, xs: seq<T>)
    requires StrictWeak(less) && Sorted(less, xs)
    ensures Sorted(less, Insert(less, x, xs)) && multiset(Insert(less, x, xs)) == multiset(xs) + multiset{x}
  {
    if xs == [] {
    } else if !less(xs[0], x) {
      forall j | 0 <= j < |xs| ensures !less(xs[j], x) {
        if j > 0 { assert !less(xs[j], xs[0]); }
      }
    } else {
      var rest := xs[1..];
      InsertKeeps(less, x, rest);
      var inserted := Insert(less, x, rest);
      assert xs == [xs[0]] + rest;
      forall j | 0 <= j < |inserted| ensures !less(inserted[j], xs[0]) {
        assert inserted[j] in multiset(inserted);
        if inserted[j] != x {
          assert inserted[j] in multiset(rest);
          var k :| 0 <= k < |rest| && rest[k] == inserted[j];
          assert !less(xs[k + 1], xs[0]);
        }
      }
    }
  }

  lemma {:induction false} SortSorts<T(!new)>(less: Order<T>, xs: seq<T>)
    requires StrictWeak(less)
    ensures Sorted(less, Sort(less, xs)) && multiset(Sort(less, xs)) == multiset(xs) && |Sort(less, xs)| == |xs|
  {
    if xs != [] {
      assert xs == [xs[0]] + xs[1..];
      SortSorts(less, xs[1..]);
      InsertKeeps(less, xs[0], Sort(less, xs[1..]));
      assert |multiset(Sort(less, xs))| == |multiset(xs)|;
    }
  }

  lemma SortedMembers<T(!new)>(less: Order<T>, xs: seq<T>)
    requires StrictWeak(less)
    ensures forall x :: x in xs <==> x in Sort(less, xs)
  {
    SortSorts(less, xs);
    forall x ensures x in xs <==> x in Sort(less, xs) {
      assert x in multiset(xs) <==> x in multiset(Sort(less, xs));
    }
  }

  lemma {:induction false} SortOfIncreasing<T(!new)>(less: Order<T>, xs: seq<T>)
    requires StrictWeak(less) && Increasing(less, xs)
    ensures Sort(less, xs) == xs
  {
    if xs != [] {
      var rest := xs[1..];
      assert xs == [xs[0]] + rest;
      TailIncreases(less, xs);
      SortOfIncreasing(less, rest);
      if rest != [] { assert less(xs[0], xs[1]); }
    }
  }

  lemma TailIncreases<T(!new)>(less: Order<T>, xs: seq<T>)
    requires StrictWeak(less) && Increasing(less, xs) && xs != []
    ensures Increasing(less, xs[1..]) && xs[0] !in xs[1..]
  {
    forall i, j | 0 <= i < j < |xs[1..]| ensures less(xs[1..][i], xs[1..][j]) {
      assert less(xs[i + 1], xs[j + 1]);
    }
    forall i | 0 <= i < |xs[1..]| ensures xs[1..][i] != xs[0] {
      assert less(xs[0], xs[i + 1]);
    }
  }

  lemma TailsAgree<T(!new)>(less: Order<T>, a: seq<T>, b: seq<T>)
    requires a != [] && b != [] && a[0] == b[0] && StrictWeak(less)
    requires Increasing(less, a) && Increasing(less, b) && forall x :: x in a <==> x in b
    ensures Increasing(less, a[1..]) && Increasing(less, b[1..]) && forall x :: x in a[1..] <==> x in b[1..]
  {
    TailIncreases(less, a);
    TailIncreases(less, b);
    forall x ensures x in a[1..] <==> x in b[1..] {
      assert a == [a[0]] + a[1..] && b == [b[0]] + b[1..];
      assert x in a <==> x == a[0] || x in a[1..];
      assert x in b <==> x == b[0] || x in b[1..];
    }
  }

  lemma HasMember<T(!new)>(xs: seq<T>)
    requires xs != []
    ensures exists x :: x in xs
  {
    assert xs[0] in xs;
  }

  lemma FirstIsLeast<T(!new)>(less: Order<T>, xs: seq<T>, x: T)
    requires Increasing(less, xs) && x in xs && x != xs[0]
    ensures less(xs[0], x)
  {
    var i :| 0 <= i < |xs| && xs[i] == x;
  }

  /** Increasing sequences with the same members are the same sequence. */
  lemma {:induction false} IncreasingIsUnique<T(!new)>(less: Order<T>, a: seq<T>, b: seq<T>)
    requires StrictWeak(less) && Increasing(less, a) && Increasing(less, b) && forall x :: x in a <==> x in b
    ensures a == b
  {
    if a == [] {
      if b != [] { HasMember(b); }
    } else {
      var x := a[0];
      assert x in b;
      var y := b[0];
      assert y in a;
      if x != y {
        FirstIsLeast(less, a, y);
        FirstIsLeast(less, b, x);
      } else {
        TailsAgree(less, a, b);
        IncreasingIsUnique(less, a[1..], b[1..]);
        assert a == [x] + a[1..] && b == [x] + b[1..];
      }
    }
  }
}
