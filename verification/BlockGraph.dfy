/** Content-addressed blocks, the source they are read from, and the directed
    graph spanned by the children that decoding a block yields. */
module BlockGraph {

  datatype BlockId = BlockId(digest: nat)

  newtype Byte = x: int | 0 <= x < 256

  type Bytes = seq<Byte>

  /** What decoding the bytes of a source block yields. */
  datatype Decoded = Children(ids: seq<BlockId>) | Undecodable(message: string)

  /** What reading a block from the source yields; an id outside the map is absent. */
  datatype SourceRead = Present(bytes: Bytes, decoded: Decoded) | ReadError(message: string)

  type Source = map<BlockId, SourceRead>

  type Graph = map<BlockId, seq<BlockId>>

  function ChildrenIn(g: Graph, b: BlockId): seq<BlockId> {
    if b in g then g[b] else []
  }

  function ChildrenOf(source: Source, b: BlockId): seq<BlockId> {
    if b in source && source[b].Present? && source[b].decoded.Children? then source[b].decoded.ids else []
  }

  predicate Readable(source: Source, b: BlockId) {
    b in source && source[b].Present?
  }

  function SourceGraph(source: Source): Graph {
    map b | b in source :: ChildrenOf(source, b)
  }

  lemma SourceGraphChildren(source: Source, b: BlockId)
    ensures ChildrenIn(SourceGraph(source), b) == ChildrenOf(source, b)
  {
  }

  ghost predicate IsPath(g: Graph, p: seq<BlockId>) {
    && p != []
    && forall i :: 0 <= i < |p| - 1 ==> p[i + 1] in ChildrenIn(g, p[i])
  }

  ghost predicate Reach(g: Graph, a: BlockId, b: BlockId) {
    exists p :: IsPath(g, p) && p[0] == a && p[|p| - 1] == b
  }

  ghost predicate ReachFromAny(g: Graph, roots: seq<BlockId>, b: BlockId) {
    exists r :: r in roots && Reach(g, r, b)
  }

  ghost predicate ClosedUnder(g: Graph, s: set<BlockId>) {
    forall b, c :: b in s && c in ChildrenIn(g, b) ==> c in s
  }

  lemma ReachSelf(g: Graph, a: BlockId)
    ensures Reach(g, a, a)
  {
    assert IsPath(g, [a]);
  }

  lemma ReachStep(g: Graph, a: BlockId, b: BlockId, c: BlockId)
    requires Reach(g, a, b) && c in ChildrenIn(g, b)
    ensures Reach(g, a, c)
  {
    var p :| IsPath(g, p) && p[0] == a && p[|p| - 1] == b;
    var q := p + [c];
    forall i | 0 <= i < |q| - 1 ensures q[i + 1] in ChildrenIn(g, q[i]) {
      if i < |p| - 1 { assert p[i + 1] in ChildrenIn(g, p[i]); }
    }
    assert IsPath(g, q) && q[0] == a && q[|q| - 1] == c;
  }

  lemma ReachTransitive(g: Graph, a: BlockId, b: BlockId, c: BlockId)
    requires Reach(g, a, b) && Reach(g, b, c)
    ensures Reach(g, a, c)
  {
    var p :| IsPath(g, p) && p[0] == a && p[|p| - 1] == b;
    var q :| IsPath(g, q) && q[0] == b && q[|q| - 1] == c;
    var whole := p + q[1..];
    forall i | 0 <= i < |whole| - 1 ensures whole[i + 1] in ChildrenIn(g, whole[i]) {
      if i < |p| - 1 {
        assert p[i + 1] in ChildrenIn(g, p[i]);
      } else {
        assert q[i - |p| + 2] in ChildrenIn(g, q[i - |p| + 1]);
      }
    }
    assert IsPath(g, whole) && whole[0] == a && whole[|whole| - 1] == c;
  }

  /** A set closed under children that holds the start of a path holds all of it. */
  lemma {:induction false} ClosedHoldsPath(g: Graph, s: set<BlockId>, p: seq<BlockId>, k: nat)
    requires IsPath(g, p) && p[0] in s && k < |p|
    requires forall i :: 0 <= i < k && p[i] in s ==> p[i + 1] in s
    ensures p[k] in s
  {
    if k > 0 { ClosedHoldsPath(g, s, p, k - 1); }
  }

  lemma ClosedHoldsReach(g: Graph, s: set<BlockId>, a: BlockId, b: BlockId)
    requires a in s && ClosedUnder(g, s) && Reach(g, a, b)
    ensures b in s
  {
    var p :| IsPath(g, p) && p[0] == a && p[|p| - 1] == b;
    forall i | 0 <= i < |p| - 1 && p[i] in s ensures p[i + 1] in s {
      assert p[i + 1] in ChildrenIn(g, p[i]);
    }
    ClosedHoldsPath(g, s, p, |p| - 1);
  }

  /** Paths survive in every graph that keeps the edges. */
  lemma ReachMonotone(g: Graph, h: Graph, a: BlockId, b: BlockId)
    requires Reach(g, a, b)
    requires forall x, y :: y in ChildrenIn(g, x) ==> y in ChildrenIn(h, x)
    ensures Reach(h, a, b)
  {
    var p :| IsPath(g, p) && p[0] == a && p[|p| - 1] == b;
    assert IsPath(h, p);
  }

  /** Every id a copy can ever meet: the roots and the children of stored blocks. */
  function Universe(source: Source, roots: seq<BlockId>): set<BlockId> {
    (set r | r in roots) + (set b, c | b in source && c in ChildrenOf(source, b) :: c)
  }

  lemma ReachInUniverse(source: Source, roots: seq<BlockId>, b: BlockId)
    requires ReachFromAny(SourceGraph(source), roots, b)
    ensures b in Universe(source, roots)
  {
    var g := SourceGraph(source);
    var r :| r in roots && Reach(g, r, b);
    forall x, c | x in Universe(source, roots) && c in ChildrenIn(g, x) ensures c in Universe(source, roots) {
      SourceGraphChildren(source, x);
    }
    ClosedHoldsReach(g, Universe(source, roots), r, b);
  }

  ghost function ReachableSet(source: Source, roots: seq<BlockId>): (s: set<BlockId>)
    ensures forall b :: b in s <==> ReachFromAny(SourceGraph(source), roots, b)
  {
    forall b | ReachFromAny(SourceGraph(source), roots, b) ensures b in Universe(source, roots) {
      ReachInUniverse(source, roots, b);
    }
    set b | b in Universe(source, roots) && ReachFromAny(SourceGraph(source), roots, b)
  }
}
