/** Dictionary order of sequences. */
module Lexicographic {

  ghost predicate StrictTotal<T(!new)>(less: (T, T) -> bool) {
    && (forall a, b :: less(a, b) || less(b, a) || a == b)
    && (forall a, b :: !(less(a, b) && less(b, a)))
    && (forall a, b, c :: less(a, b) && less(b, c) ==> less(a, c))
  }

  predicate LexLess<T(==)>(less: (T, T) -> bool, a: seq<T>, b: seq<T>) {
    b != [] && (a == [] || less(a[0], b[0]) || (a[0] == b[0] && LexLess(less, a[1..], b[1..])))
  }

  lemma {:induction false} LexTotal<T(!new)>(less: (T, T) -> bool, a: seq<T>, b: seq<T>)
    requires StrictTotal(less)
    ensures LexLess(less, a, b) || LexLess(less, b, a) || a == b
    ensures !(LexLess(less, a, b) && LexLess(less, b, a)) && (a == b ==> !LexLess(less, a, b))
    decreases |a|
  {
    if a != [] && b != [] {
      LexTotal(less, a[1..], b[1..]);
      if a[0] == b[0] && a[1..] == b[1..] { assert a == [a[0]] + a[1..] == b; }
    }
  }

  lemma {:induction false} LexTransitive<T(!new)>(less: (T, T) -> bool, a: seq<T>, b: seq<T>, c: seq<T>)
    requires StrictTotal(less) && LexLess(less, a, b) && LexLess(less, b, c)
    ensures LexLess(less, a, c)
  {
    if a != [] && a[0] == b[0] && b[0] == c[0] { LexTransitive(less, a[1..], b[1..], c[1..]); }
  }

  /** The first difference decides; a proper prefix comes first. */
  ghost predicate DecidesAt<T>(less: (T, T) -> bool, a: seq<T>, b: seq<T>, k: nat) {
    k <= |a| && k < |b| && a[..k] == b[..k] && (k == |a| || less(a[k], b[k]))
  }

  lemma {:induction false} LexLessIff<T>(less: (T, T) -> bool, a: seq<T>, b: seq<T>)
    ensures LexLess(less, a, b) <==> exists k: nat :: DecidesAt(less, a, b, k)
  {
    if b == [] {
    } else if a == [] || less(a[0], b[0]) {
      assert DecidesAt(less, a, b, 0);
    } else {
      LexLessIff(less, a[1..], b[1..]);
      if a[0] == b[0] && LexLess(less, a[1..], b[1..]) {
        var k: nat :| DecidesAt(less, a[1..], b[1..], k);
        assert a[..k + 1] == [a[0]] + a[1..][..k] && b[..k + 1] == [b[0]] + b[1..][..k];
        assert DecidesAt(less, a, b, k + 1);
      }
      if k: nat :| DecidesAt(less, a, b, k) {
        assert k > 0 && a[..k][0] == a[0] && b[..k][0] == b[0];
        assert a[1..][..k - 1] == a[..k][1..] && b[1..][..k - 1] == b[..k][1..];
        assert DecidesAt(less, a[1..], b[1..], k - 1);
      }
    }
  }

  predicate CharLess(a: char, b: char) { a < b }

  predicate TextLess(a: string, b: string) { LexLess(CharLess, a, b) }

  /** The order of texts by code points. */
  lemma TextOrder()
    ensures StrictTotal(TextLess)
  {
    forall a, b ensures (TextLess(a, b) || TextLess(b, a) || a == b) && !(TextLess(a, b) && TextLess(b, a)) {
      LexTotal(CharLess, a, b);
    }
    forall a, b, c | TextLess(a, b) && TextLess(b, c) ensures TextLess(a, c) {
      LexTransitive(CharLess, a, b, c);
    }
  }

  /** Texts are compared by their first difference, by code points; a prefix comes first. */
  lemma TextLessIff(a: string, b: string)
    ensures TextLess(a, b) <==>
      exists k: nat :: k <= |a| && k < |b| && a[..k] == b[..k] && (k == |a| || a[k] < b[k])
  {
    LexLessIff(CharLess, a, b);
    if k: nat :| k <= |a| && k < |b| && a[..k] == b[..k] && (k == |a| || a[k] < b[k]) {
      assert DecidesAt(CharLess, a, b, k);
    }
  }
}
