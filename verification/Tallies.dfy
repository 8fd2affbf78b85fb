/** Sums over the members of a sequence, and how one update moves them. */
module Tallies {

  function Tally<T>(xs: seq<T>, f: T -> nat): nat {
    if xs == [] then 0 else f(xs[0]) + Tally(xs[1..], f)
  }

  lemma {:induction false} TallyUpdate<T>(xs: seq<T>, i: nat, x: T, f: T -> nat)
    requires i < |xs|
    ensures Tally(xs[i := x], f) + f(xs[i]) == Tally(xs, f) + f(x)
  {
    var ys := xs[i := x];
    if i == 0 {
      assert ys[1..] == xs[1..];
    } else {
      assert ys[1..] == xs[1..][i - 1 := x];
      TallyUpdate(xs[1..], i - 1, x, f);
    }
  }

  lemma {:induction false} TallyHolds<T>(xs: seq<T>, i: nat, f: T -> nat)
    requires i < |xs|
    ensures f(xs[i]) <= Tally(xs, f)
  {
    if i > 0 { TallyHolds(xs[1..], i - 1, f); }
  }

  lemma {:induction false} TallyHoldsTwo<T>(xs: seq<T>, i: nat, j: nat, f: T -> nat)
    requires i < j < |xs|
    ensures f(xs[i]) + f(xs[j]) <= Tally(xs, f)
  {
    if i > 0 { TallyHoldsTwo(xs[1..], i - 1, j - 1, f); } else { TallyHolds(xs[1..], j - 1, f); }
  }

  lemma {:induction false} TallyZero<T>(xs: seq<T>, f: T -> nat)
    requires forall i :: 0 <= i < |xs| ==> f(xs[i]) == 0
    ensures Tally(xs, f) == 0
  {
    if xs != [] {
      forall i | 0 <= i < |xs[1..]| ensures f(xs[1..][i]) == 0 { assert xs[1..][i] == xs[i + 1]; }
      TallyZero(xs[1..], f);
    }
  }

  lemma {:induction false} TallyPositive<T>(xs: seq<T>, f: T -> nat) returns (i: nat)
    requires Tally(xs, f) > 0
    ensures i < |xs| && f(xs[i]) > 0
  {
    if f(xs[0]) > 0 {
      i := 0;
    } else {
      i := TallyPositive(xs[1..], f);
      i := i + 1;
    }
  }

  lemma {:induction false} TallyConcat<T>(xs: seq<T>, ys: seq<T>, f: T -> nat)
    ensures Tally(xs + ys, f) == Tally(xs, f) + Tally(ys, f)
  {
    if xs == [] {
      assert xs + ys == ys;
    } else {
      assert (xs + ys)[1..] == xs[1..] + ys;
      TallyConcat(xs[1..], ys, f);
    }
  }

  function Gather<T, E>(xs: seq<T>, f: T -> multiset<E>): multiset<E> {
    if xs == [] then multiset{} else f(xs[0]) + Gather(xs[1..], f)
  }

  lemma {:induction false} GatherUpdate<T, E>(xs: seq<T>, i: nat, x: T, f: T -> multiset<E>)
    requires i < |xs|
    ensures Gather(xs[i := x], f) + f(xs[i]) == Gather(xs, f) + f(x)
  {
    var ys := xs[i := x];
    if i == 0 {
      assert ys[1..] == xs[1..];
    } else {
      assert ys[1..] == xs[1..][i - 1 := x];
      GatherUpdate(xs[1..], i - 1, x, f);
      var head, before, after := f(xs[0]), Gather(xs[1..], f), Gather(xs[1..][i - 1 := x], f);
      assert after + f(xs[i]) == before + f(x);
      assert Gather(ys, f) + f(xs[i]) == head + (after + f(xs[i])) == head + (before + f(x)) == Gather(xs, f) + f(x);
    }
  }

  lemma {:induction false} GatherHolds<T, E>(xs: seq<T>, i: nat, f: T -> multiset<E>)
    requires i < |xs|
    ensures f(xs[i]) <= Gather(xs, f)
  {
    if i > 0 { GatherHolds(xs[1..], i - 1, f); }
  }

  lemma {:induction false} GatherEmpty<T, E>(xs: seq<T>, f: T -> multiset<E>)
    requires forall i :: 0 <= i < |xs| ==> f(xs[i]) == multiset{}
    ensures Gather(xs, f) == multiset{}
  {
    if xs != [] {
      forall i | 0 <= i < |xs[1..]| ensures f(xs[1..][i]) == multiset{} { assert xs[1..][i] == xs[i + 1]; }
      GatherEmpty(xs[1..], f);
    }
  }

  lemma {:induction false} GatherSize<T, E>(xs: seq<T>, f: T -> multiset<E>, g: T -> nat)
    requires forall x :: g(x) == |f(x)|
    ensures |Gather(xs, f)| == Tally(xs, g)
  {
    if xs != [] { GatherSize(xs[1..], f, g); }
  }

  lemma {:induction false} GatherConcat<T, E>(xs: seq<T>, ys: seq<T>, f: T -> multiset<E>)
    ensures Gather(xs + ys, f) == Gather(xs, f) + Gather(ys, f)
  {
    if xs == [] {
      assert xs + ys == ys;
    } else {
      assert (xs + ys)[1..] == xs[1..] + ys;
      GatherConcat(xs[1..], ys, f);
    }
  }

  /** A member of the union comes from some entry. */
  lemma {:induction false} GatherSource<T, E>(xs: seq<T>, f: T -> multiset<E>, e: E) returns (i: nat)
    requires e in Gather(xs, f)
    ensures i < |xs| && e in f(xs[i])
  {
    if e in f(xs[0]) {
      i := 0;
    } else {
      i := GatherSource(xs[1..], f, e);
      i := i + 1;
    }
  }

  lemma CancelBag<E>(before: multiset<E>, after: multiset<E>, x: multiset<E>)
    requires after + x == before + x
    ensures after == before
  {
    forall e ensures after[e] == before[e] { assert (after + x)[e] == (before + x)[e]; }
  }

  lemma RemoveBag<E>(before: multiset<E>, after: multiset<E>, x: multiset<E>)
    requires after + x == before
    ensures after == before - x
  {
  }

  function UnionOf<T, E>(xs: seq<T>, f: T -> set<E>): set<E> {
    set i, e | 0 <= i < |xs| && e in f(xs[i]) :: e
  }

  lemma UnionUpdate<T, E>(xs: seq<T>, i: nat, x: T, f: T -> set<E>)
    requires i < |xs|
    ensures UnionOf(xs[i := x], f) <= UnionOf(xs, f) + f(x)
    ensures UnionOf(xs, f) <= UnionOf(xs[i := x], f) + f(xs[i])
    ensures f(xs[i]) <= UnionOf(xs, f) && f(x) <= UnionOf(xs[i := x], f)
  {
    forall e | e in UnionOf(xs, f) ensures e in UnionOf(xs[i := x], f) + f(xs[i]) {
      var j :| 0 <= j < |xs| && e in f(xs[j]);
      if j != i { assert xs[i := x][j] == xs[j]; }
    }
    forall e | e in f(x) ensures e in UnionOf(xs[i := x], f) { assert xs[i := x][i] == x; }
  }

  lemma TallyOne<T>(x: T, f: T -> nat)
    ensures Tally([x], f) == f(x)
  {
    assert [x][1..] == [];
    assert Tally([x], f) == f(x) + Tally([x][1..], f);
  }

  lemma TallyWithout<T>(xs: seq<T>, k: nat, f: T -> nat)
    requires k < |xs|
    ensures Tally(xs, f) == f(xs[k]) + Tally(xs[..k] + xs[k + 1..], f)
  {
    hide Tally;
    assert xs == xs[..k] + ([xs[k]] + xs[k + 1..]);
    TallyConcat(xs[..k], [xs[k]] + xs[k + 1..], f);
    TallyConcat([xs[k]], xs[k + 1..], f);
    TallyConcat(xs[..k], xs[k + 1..], f);
    TallyOne(xs[k], f);
  }

  lemma GatherOne<T, E>(x: T, f: T -> multiset<E>)
    ensures Gather([x], f) == f(x)
  {
    assert [x][1..] == [];
    assert Gather([x], f) == f(x) + Gather([x][1..], f);
  }

  lemma MiddleFirst<E>(a: multiset<E>, b: multiset<E>, c: multiset<E>)
    ensures a + (b + c) == b + (a + c)
  {
  }

  lemma GatherWithout<T, E>(xs: seq<T>, k: nat, f: T -> multiset<E>)
    requires k < |xs|
    ensures Gather(xs, f) == f(xs[k]) + Gather(xs[..k] + xs[k + 1..], f)
  {
    hide Gather;
    assert xs == xs[..k] + ([xs[k]] + xs[k + 1..]);
    GatherConcat(xs[..k], [xs[k]] + xs[k + 1..], f);
    GatherConcat([xs[k]], xs[k + 1..], f);
    GatherConcat(xs[..k], xs[k + 1..], f);
    GatherOne(xs[k], f);
    MiddleFirst(Gather(xs[..k], f), f(xs[k]), Gather(xs[k + 1..], f));
  }

  /** Sums do not depend on the order. */
  lemma {:induction false} SameBagSameTally<T(!new)>(xs: seq<T>, ys: seq<T>, f: T -> nat)
    requires multiset(xs) == multiset(ys)
    ensures Tally(xs, f) == Tally(ys, f)
  {
    if xs == [] {
      assert |multiset(ys)| == |ys|;
    } else {
      var k := FirstInOther(xs, ys);
      TallyWithout(ys, k, f);
      SameBagSameTally(xs[1..], ys[..k] + ys[k + 1..], f);
    }
  }

  lemma FirstInOther<T(!new)>(xs: seq<T>, ys: seq<T>) returns (k: nat)
    requires multiset(xs) == multiset(ys) && xs != []
    ensures k < |ys| && ys[k] == xs[0] && multiset(xs[1..]) == multiset(ys[..k] + ys[k + 1..])
  {
    var x := xs[0];
    assert x in multiset(ys);
    k :| 0 <= k < |ys| && ys[k] == x;
    var rest := ys[..k] + ys[k + 1..];
    assert xs == [x] + xs[1..] && ys == ys[..k] + [x] + ys[k + 1..];
    assert multiset(xs) == multiset(xs[1..]) + multiset{x} && multiset(ys) == multiset(rest) + multiset{x};
    CancelBag(multiset(rest), multiset(xs[1..]), multiset{x});
  }

  /** Two places of a sequence correspond to two places of any rearrangement. */
  lemma TwoInOther<T(!new)>(xs: seq<T>, ys: seq<T>, i: nat, j: nat) returns (k: nat, l: nat)
    requires multiset(xs) == multiset(ys) && i < j < |xs|
    ensures k < |ys| && l < |ys| && k != l && ys[k] == xs[i] && ys[l] == xs[j]
  {
    TwoPlaces(xs, i, j);
    k, l := FindTwo(ys, xs[i], xs[j]);
  }

  lemma TwoPlaces<T(!new)>(xs: seq<T>, i: nat, j: nat)
    requires i < j < |xs|
    ensures multiset{xs[i], xs[j]} <= multiset(xs)
  {
    assert xs == xs[..i] + [xs[i]] + xs[i + 1..j] + [xs[j]] + xs[j + 1..];
  }

  lemma FindTwo<T(!new)>(ys: seq<T>, x: T, y: T) returns (k: nat, l: nat)
    requires multiset{x, y} <= multiset(ys)
    ensures k < |ys| && l < |ys| && k != l && ys[k] == x && ys[l] == y
  {
    k := Find(ys, x);
    var rest := ys[..k] + ys[k + 1..];
    assert ys == ys[..k] + [x] + ys[k + 1..];
    assert multiset(ys) == multiset(rest) + multiset{x};
    RestHolds(multiset(ys), multiset(rest), x, y);
    l := Find(rest, y);
    if l >= k { l := l + 1; }
  }

  lemma Find<T(!new)>(ys: seq<T>, x: T) returns (k: nat)
    requires x in multiset(ys)
    ensures k < |ys| && ys[k] == x
  {
    k :| 0 <= k < |ys| && ys[k] == x;
  }

  lemma RestHolds<T(!new)>(all: multiset<T>, rest: multiset<T>, x: T, y: T)
    requires all == rest + multiset{x} && multiset{x, y} <= all
    ensures y in rest
  {
    assert multiset{x, y}[y] <= all[y];
  }
}
