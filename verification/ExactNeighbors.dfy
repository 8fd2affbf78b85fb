/** The exact neighbours of sampled queries: every corpus entry below a root is scored
    against every query, in batches, and each query keeps its best candidates. */
module ExactNeighbors {
  import opened BlockGraph
  import opened Lexicographic
  import opened Multiples
  import opened Tallies
  import opened BoundedHeap
  import opened Sorting
  import opened TreeQuality

  const MAX_EXACT_NEIGHBORS: nat := 10
  const EXACT_SCORING_BATCH_SIZE: nat := 1024

  /** A leaf entry. One whose embedding has no magnitude is left out of the corpus; one that
      does not meet the leaf's specification ends the search. */
  datatype LeafEntry = LeafEntry(neighborId: string, embedding: seq<real>, wellFormed: bool, hasMagnitude: bool)

  datatype Query = Query(neighborId: string, embedding: seq<real>)

  datatype CorpusEntry = CorpusEntry(neighborId: string, leaf: BlockId, embedding: seq<real>)

  datatype Candidate = Candidate(score: real, leaf: BlockId, neighborId: string)

  /** How alike two embeddings are. */
  type Similarity = (seq<real>, seq<real>) -> real

  /** What can end a search early: the answers to the loads of the interrupt flag, the ids
      whose look-up fails, and embeddings that cannot be compared. */
  datatype Obstacles = Obstacles(
    interrupted: nat -> bool,
    unread: set<BlockId>,
    comparable: (seq<real>, seq<real>) -> bool)

  /** The entry can be compared with every query but its own. */
  predicate Scorable(o: Obstacles, queries: seq<Query>, e: CorpusEntry) {
    forall q :: q in queries && q.neighborId != e.neighborId ==> o.comparable(q.embedding, e.embedding)
  }

  predicate AllScorable(o: Obstacles, queries: seq<Query>, corpus: seq<CorpusEntry>) {
    forall e :: e in corpus ==> Scorable(o, queries, e)
  }

  // ----------------------------------------------------------------- the order

  /** Higher scores first, then smaller block ids, then smaller neighbour ids. */
  predicate Better(a: Candidate, b: Candidate) {
    || a.score > b.score
    || (a.score == b.score && a.leaf.digest < b.leaf.digest)
    || (a.score == b.score && a.leaf == b.leaf && TextLess(a.neighborId, b.neighborId))
  }

  /** The order of candidates has no ties. */
  lemma BetterIsTotal(all: multiset<Candidate>)
    ensures StrictWeak(Better) && NoTies(Better, all)
    ensures forall a: Candidate, b: Candidate :: a.score > b.score ==> Better(a, b)
    ensures forall a: Candidate, b: Candidate :: a.score == b.score && a.leaf.digest < b.leaf.digest ==> Better(a, b)
    ensures forall a: Candidate, b: Candidate ::
      a.score == b.score && a.leaf == b.leaf && TextLess(a.neighborId, b.neighborId) ==> Better(a, b)
  {
    hide TextLess;
    TextOrder();
    forall a, b ensures (Better(a, b) || Better(b, a) || a == b) && !(Better(a, b) && Better(b, a)) && !Better(a, a) {
      assert !(TextLess(a.neighborId, b.neighborId) && TextLess(b.neighborId, a.neighborId));
    }
    forall a, b, c | Better(a, b) && Better(b, c) ensures Better(a, c) {
      assert TextLess(a.neighborId, b.neighborId) && TextLess(b.neighborId, c.neighborId) ==>
        TextLess(a.neighborId, c.neighborId);
    }
    forall a, b, c | Better(a, c) ensures Better(a, b) || Better(b, c) {
      if !Better(a, b) && a != b { assert Better(b, a); }
    }
  }

  /** The ten best of what was offered, or all of it: nothing left out has a higher score
      than anything kept; among equal scores the smaller leaf ids are kept, and within a leaf
      the smaller neighbour ids. */
  ghost predicate TenBest(kept: multiset<Candidate>, offered: multiset<Candidate>) {
    && kept <= offered
    && |kept| == (if |offered| <= 10 then |offered| else 10)
    && forall x, y :: x in kept && y in offered - kept ==>
         && y.score <= x.score
         && (y.score == x.score ==> x.leaf.digest <= y.leaf.digest)
         && (y.score == x.score && y.leaf == x.leaf ==> !TextLess(y.neighborId, x.neighborId))
  }

  /** The same for every query. */
  ghost predicate AllTenBest(queries: seq<Query>, heaps: seq<multiset<Candidate>>,
                             offered: seq<multiset<Candidate>>) {
    && |heaps| == |queries| == |offered|
    && forall i :: 0 <= i < |queries| ==> TenBest(heaps[i], offered[i])
  }

  lemma BestAreTenBest(kept: multiset<Candidate>, offered: multiset<Candidate>)
    ensures Best(Better, kept, offered, MAX_EXACT_NEIGHBORS) <==> TenBest(kept, offered)
  {
    hide TextLess;
    forall x: Candidate, y: Candidate
      ensures !Better(y, x) <==>
        && y.score <= x.score
        && (y.score == x.score ==> x.leaf.digest <= y.leaf.digest)
        && (y.score == x.score && y.leaf == x.leaf ==> !TextLess(y.neighborId, x.neighborId))
    {
    }
    hide Better;
  }

  // --------------------------------------------------------------- what is offered

  function EntryOf(leaf: BlockId, e: LeafEntry): CorpusEntry { CorpusEntry(e.neighborId, leaf, e.embedding) }

  function Usable(leaf: BlockId, entries: seq<LeafEntry>): seq<CorpusEntry> {
    if entries == [] then []
    else (if entries[0].hasMagnitude then [EntryOf(leaf, entries[0])] else []) + Usable(leaf, entries[1..])
  }

  function CandidateFor(similarity: Similarity, q: Query, e: CorpusEntry): Candidate {
    Candidate(similarity(q.embedding, e.embedding), e.leaf, e.neighborId)
  }

  function OwnOffer(similarity: Similarity, q: Query, e: CorpusEntry): multiset<Candidate> {
    if e.neighborId == q.neighborId then multiset{} else multiset{CandidateFor(similarity, q, e)}
  }

  /** What a query is offered from some corpus entries: all but entries for itself. */
  function Offers(similarity: Similarity, q: Query, corpus: seq<CorpusEntry>): multiset<Candidate> {
    if corpus == [] then multiset{} else OwnOffer(similarity, q, corpus[0]) + Offers(similarity, q, corpus[1..])
  }

  lemma {:induction false} OffersConcat(similarity: Similarity, q: Query, a: seq<CorpusEntry>, b: seq<CorpusEntry>)
    ensures Offers(similarity, q, a + b) == Offers(similarity, q, a) + Offers(similarity, q, b)
  {
    if a == [] {
      assert a + b == b;
    } else {
      assert (a + b)[1..] == a[1..] + b;
      OffersConcat(similarity, q, a[1..], b);
    }
  }

  lemma {:induction false} UsableConcat(leaf: BlockId, a: seq<LeafEntry>, b: seq<LeafEntry>)
    ensures Usable(leaf, a + b) == Usable(leaf, a) + Usable(leaf, b)
  {
    if a == [] {
      assert a + b == b;
    } else {
      assert (a + b)[1..] == a[1..] + b;
      UsableConcat(leaf, a[1..], b);
    }
  }

  /** The leaf entries of each block; a branch has none. */
  type Leaves = map<BlockId, seq<LeafEntry>>

  function EntriesIn(leaves: Leaves, b: BlockId): seq<LeafEntry> { if b in leaves then leaves[b] else [] }

  function BlockOffers(similarity: Similarity, leaves: Leaves, q: Query): BlockId -> multiset<Candidate> {
    b => Offers(similarity, q, Usable(b, EntriesIn(leaves, b)))
  }

  /** Everything a query is offered by some blocks. */
  function Corpus(similarity: Similarity, leaves: Leaves, q: Query, blocks: seq<BlockId>): multiset<Candidate> {
    Gather(blocks, BlockOffers(similarity, leaves, q))
  }

  ghost predicate HeapsHold(similarity: Similarity, queries: seq<Query>, heaps: seq<multiset<Candidate>>,
                            offered: seq<multiset<Candidate>>) {
    && |heaps| == |queries| && |offered| == |queries|
    && forall i :: 0 <= i < |queries| ==> Best(Better, heaps[i], offered[i], MAX_EXACT_NEIGHBORS)
  }

  function OffersToAll(similarity: Similarity, queries: seq<Query>,
                       corpus: seq<CorpusEntry>): seq<multiset<Candidate>> {
    seq(|queries|, i requires 0 <= i < |queries| => Offers(similarity, queries[i], corpus))
  }

  function CorpusForAll(similarity: Similarity, leaves: Leaves, queries: seq<Query>,
                        blocks: seq<BlockId>): seq<multiset<Candidate>> {
    seq(|queries|, i requires 0 <= i < |queries| => Corpus(similarity, leaves, queries[i], blocks))
  }

  function AddOffers(a: seq<multiset<Candidate>>, b: seq<multiset<Candidate>>): seq<multiset<Candidate>>
    requires |a| == |b|
  {
    seq(|a|, i requires 0 <= i < |a| => a[i] + b[i])
  }

  // ------------------------------------------------------------------- one batch

  /** What each query has been offered when the queries below `qi` have seen one entry more. */
  function Midway(similarity: Similarity, queries: seq<Query>, offered: seq<multiset<Candidate>>,
                  corpus: seq<CorpusEntry>, ci: nat, qi: nat): seq<multiset<Candidate>>
    requires |offered| == |queries| && ci < |corpus| && qi <= |queries|
  {
    seq(|queries|, i requires 0 <= i < |queries| =>
      offered[i] + Offers(similarity, queries[i], corpus[..if i < qi then ci + 1 else ci]))
  }

  lemma MidwayStarts(similarity: Similarity, queries: seq<Query>, offered: seq<multiset<Candidate>>,
                     corpus: seq<CorpusEntry>, ci: nat)
    requires |offered| == |queries| && ci < |corpus|
    ensures Midway(similarity, queries, offered, corpus, ci, 0) ==
      AddOffers(offered, OffersToAll(similarity, queries, corpus[..ci]))
    ensures Midway(similarity, queries, offered, corpus, ci, |queries|) ==
      AddOffers(offered, OffersToAll(similarity, queries, corpus[..ci + 1]))
  {
  }

  lemma MidwaySteps(similarity: Similarity, queries: seq<Query>, offered: seq<multiset<Candidate>>,
                    corpus: seq<CorpusEntry>, ci: nat, qi: nat)
    requires |offered| == |queries| && ci < |corpus| && qi < |queries|
    ensures var before, own := Midway(similarity, queries, offered, corpus, ci, qi),
      OwnOffer(similarity, queries[qi], corpus[ci]);
      Midway(similarity, queries, offered, corpus, ci, qi + 1) == before[qi := before[qi] + own]
  {
    assert corpus[..ci + 1] == corpus[..ci] + [corpus[ci]];
    OffersConcat(similarity, queries[qi], corpus[..ci], [corpus[ci]]);
    assert [corpus[ci]][1..] == [];
    assert Offers(similarity, queries[qi], [corpus[ci]]) == OwnOffer(similarity, queries[qi], corpus[ci]) + multiset{};
    OneMoreOffer(offered[qi], Offers(similarity, queries[qi], corpus[..ci]),
        OwnOffer(similarity, queries[qi], corpus[ci]));
  }

  lemma OneMoreOffer(a: multiset<Candidate>, b: multiset<Candidate>, c: multiset<Candidate>)
    ensures a + (b + (c + multiset{})) == (a + b) + c
  {
  }

  lemma NothingOffered(similarity: Similarity, queries: seq<Query>, offered: seq<multiset<Candidate>>,
                       corpus: seq<CorpusEntry>)
    requires |offered| == |queries|
    ensures AddOffers(offered, OffersToAll(similarity, queries, corpus[..0])) == offered
    ensures corpus == [] ==> AddOffers(offered, OffersToAll(similarity, queries, corpus)) == offered
    ensures corpus[..|corpus|] == corpus
  {
    assert corpus[..0] == [];
    forall i | 0 <= i < |offered| ensures offered[i] + multiset{} == offered[i] { }
  }

  lemma HeapsHoldAfter(similarity: Similarity, queries: seq<Query>, heaps: seq<multiset<Candidate>>,
                       offered: seq<multiset<Candidate>>, i: nat, heap: multiset<Candidate>, more: multiset<Candidate>)
    requires HeapsHold(similarity, queries, heaps, offered) && i < |queries|
    requires Best(Better, heap, offered[i] + more, MAX_EXACT_NEIGHBORS)
    ensures HeapsHold(similarity, queries, heaps[i := heap], offered[i := offered[i] + more])
  {
    hide Best;
  }

  /** Scores a batch of corpus entries against all queries, then offers the candidates.
      `loads` counts the loads of the interrupt flag. */
  method ScoreExactBatch(similarity: Similarity, obstacles: Obstacles, loads: nat, corpus: seq<CorpusEntry>,
                         queries: seq<Query>, heaps: seq<multiset<Candidate>>, ghost offered: seq<multiset<Candidate>>)
    returns (ok: bool, loads': nat, heaps': seq<multiset<Candidate>>)
    requires HeapsHold(similarity, queries, heaps, offered)
    ensures loads <= loads'
    ensures ok <==> Uninterrupted(obstacles.interrupted, loads, loads') && AllScorable(obstacles, queries, corpus)
    ensures ok ==> HeapsHold(similarity, queries, heaps', AddOffers(offered, OffersToAll(similarity, queries, corpus)))
    ensures ok ==> AllTenBest(queries, heaps', AddOffers(offered, OffersToAll(similarity, queries, corpus)))
  {
    hide HeapsHold, AddOffers, Midway, ScoresAre, AllTenBest;
    HeapCounts(similarity, queries, heaps, offered);
    loads', heaps' := loads, heaps;
    NothingOffered(similarity, queries, offered, corpus);
    if corpus == [] || queries == [] {
      assert queries == [] ==> AddOffers(offered, OffersToAll(similarity, queries, corpus)) == offered by {
        NoQueries(similarity, offered, corpus);
      }
      HeapsAreTenBest(similarity, queries, heaps', AddOffers(offered, OffersToAll(similarity, queries, corpus)));
      return true, loads', heaps';
    }
    var scores;
    ok, loads', scores := FillScores(similarity, obstacles, loads, corpus, queries);
    if !ok { return; }
    for ci := 0 to |corpus|
      invariant HeapsHold(similarity, queries, heaps',
          AddOffers(offered, OffersToAll(similarity, queries, corpus[..ci])))
      invariant scores.Length == |corpus| * |queries| && ScoresAre(similarity, corpus, queries, scores[..])
    {
      MidwayStarts(similarity, queries, offered, corpus, ci);
      heaps' := OfferToAll(similarity, corpus, queries, scores, heaps', offered, ci);
    }
    HeapsAreTenBest(similarity, queries, heaps', AddOffers(offered, OffersToAll(similarity, queries, corpus)));
  }

  lemma NoQueries(similarity: Similarity, offered: seq<multiset<Candidate>>, corpus: seq<CorpusEntry>)
    ensures |offered| == 0 ==> AddOffers(offered, OffersToAll(similarity, [], corpus)) == offered
  {
  }

  lemma HeapsAreTenBest(similarity: Similarity, queries: seq<Query>, heaps: seq<multiset<Candidate>>,
                        offered: seq<multiset<Candidate>>)
    requires HeapsHold(similarity, queries, heaps, offered)
    ensures AllTenBest(queries, heaps, offered)
  {
    hide Best, TenBest;
    forall i | 0 <= i < |queries| ensures TenBest(heaps[i], offered[i]) { BestAreTenBest(heaps[i], offered[i]); }
  }

  lemma HeapCounts(similarity: Similarity, queries: seq<Query>, heaps: seq<multiset<Candidate>>,
                   offered: seq<multiset<Candidate>>)
    requires HeapsHold(similarity, queries, heaps, offered)
    ensures |heaps| == |queries| && |offered| == |queries|
    ensures forall i :: 0 <= i < |queries| ==> Best(Better, heaps[i], offered[i], MAX_EXACT_NEIGHBORS)
  {
  }

  /** The score at a row-major position, unless the entry is the query itself. */
  predicate ScoreIs(similarity: Similarity, corpus: seq<CorpusEntry>, queries: seq<Query>, k: nat, score: real)
    requires queries != []
  {
    var c, q := k / |queries|, k % |queries|;
    c < |corpus| && corpus[c].neighborId != queries[q].neighborId ==>
      score == similarity(queries[q].embedding, corpus[c].embedding)
  }

  predicate ScoresAre(similarity: Similarity, corpus: seq<CorpusEntry>, queries: seq<Query>, scores: seq<real>)
    requires queries != []
  {
    forall k :: 0 <= k < |scores| ==> ScoreIs(similarity, corpus, queries, k, scores[k])
  }

  lemma ScoreAt(similarity: Similarity, corpus: seq<CorpusEntry>, queries: seq<Query>, scores: seq<real>, c: nat,
                q: nat)
    requires queries != [] && ScoresAre(similarity, corpus, queries, scores) && c < |corpus| && q < |queries|
    requires |scores| == |corpus| * |queries|
    ensures c * |queries| + q < |scores|
    ensures corpus[c].neighborId != queries[q].neighborId ==>
      scores[c * |queries| + q] == similarity(queries[q].embedding, corpus[c].embedding)
  {
    RowMajorFits(|corpus|, |queries|, c, q);
    DivisionIs(c * |queries| + q, |queries|, c, q);
    assert ScoreIs(similarity, corpus, queries, c * |queries| + q, scores[c * |queries| + q]);
  }

  lemma ScoreFilled(similarity: Similarity, corpus: seq<CorpusEntry>, queries: seq<Query>, c: nat, q: nat, score: real)
    requires queries != [] && c < |corpus| && q < |queries|
    requires corpus[c].neighborId != queries[q].neighborId ==>
      score == similarity(queries[q].embedding, corpus[c].embedding)
    ensures ScoreIs(similarity, corpus, queries, c * |queries| + q, score)
  {
    DivisionIs(c * |queries| + q, |queries|, c, q);
  }

  /** Fills the table of scores, row by row, unless an interrupt is noticed or two embeddings
      cannot be compared. */
  method FillScores(similarity: Similarity, obstacles: Obstacles, loads: nat, corpus: seq<CorpusEntry>,
                    queries: seq<Query>)
    returns (ok: bool, loads': nat, scores: array<real>)
    requires queries != []
    ensures ok ==> scores.Length == |corpus| * |queries| && ScoresAre(similarity, corpus, queries, scores[..])
    ensures loads <= loads'
    ensures ok <==> Uninterrupted(obstacles.interrupted, loads, loads') && AllScorable(obstacles, queries, corpus)
  {
    hide ScoreIs;
    loads', scores := loads, new real[|corpus| * |queries|](i => 0.0);
    for ci := 0 to |corpus|
      invariant ci * |queries| <= scores.Length && loads <= loads'
      invariant forall k :: 0 <= k < ci * |queries| ==> ScoreIs(similarity, corpus, queries, k, scores[k])
      invariant Uninterrupted(obstacles.interrupted, loads, loads')
      invariant forall c :: 0 <= c < ci ==> Scorable(obstacles, queries, corpus[c])
    {
      loads' := loads' + 1;
      if obstacles.interrupted(loads' - 1) { return false, loads', scores; }
      RowMajorFits(|corpus|, |queries|, ci, |queries| - 1);
      for qi := 0 to |queries|
        invariant forall k :: 0 <= k < ci * |queries| + qi ==> ScoreIs(similarity, corpus, queries, k, scores[k])
        invariant forall q :: 0 <= q < qi && queries[q].neighborId != corpus[ci].neighborId ==>
          obstacles.comparable(queries[q].embedding, corpus[ci].embedding)
      {
        if corpus[ci].neighborId != queries[qi].neighborId {
          if !obstacles.comparable(queries[qi].embedding, corpus[ci].embedding) {
            assert !Scorable(obstacles, queries, corpus[ci]);
            return false, loads', scores;
          }
          scores[ci * |queries| + qi] := similarity(queries[qi].embedding, corpus[ci].embedding);
        }
        ScoreFilled(similarity, corpus, queries, ci, qi, scores[ci * |queries| + qi]);
      }
      assert (ci + 1) * |queries| == ci * |queries| + |queries|;
    }
    return true, loads', scores;
  }

  /** Offers one corpus entry to every query but its own. */
  method OfferToAll(similarity: Similarity, corpus: seq<CorpusEntry>, queries: seq<Query>, scores: array<real>,
                    heaps: seq<multiset<Candidate>>, ghost offered: seq<multiset<Candidate>>, ci: nat)
    returns (heaps': seq<multiset<Candidate>>)
    requires queries != [] && ci < |corpus| && |offered| == |queries|
    requires scores.Length == |corpus| * |queries| && ScoresAre(similarity, corpus, queries, scores[..])
    requires HeapsHold(similarity, queries, heaps, Midway(similarity, queries, offered, corpus, ci, 0))
    ensures HeapsHold(similarity, queries, heaps', Midway(similarity, queries, offered, corpus, ci, |queries|))
  {
    hide HeapsHold, Best, Midway, OwnOffer, ScoresAre;
    heaps' := heaps;
    for qi := 0 to |queries|
      invariant HeapsHold(similarity, queries, heaps', Midway(similarity, queries, offered, corpus, ci, qi))
    {
      ghost var before := Midway(similarity, queries, offered, corpus, ci, qi);
      MidwaySteps(similarity, queries, offered, corpus, ci, qi);
      HeapCounts(similarity, queries, heaps', before);
      OwnOfferIs(similarity, queries[qi], corpus[ci]);
      if corpus[ci].neighborId == queries[qi].neighborId {
        assert before[qi] + multiset{} == before[qi] && before[qi := before[qi]] == before;
        continue;
      }
      ScoreAt(similarity, corpus, queries, scores[..], ci, qi);
      var candidate := Candidate(scores[ci * |queries| + qi], corpus[ci].leaf, corpus[ci].neighborId);
      BetterIsTotal(multiset{});
      var heap := PushBounded(Better, heaps'[qi], candidate, MAX_EXACT_NEIGHBORS, before[qi]);
      HeapsHoldAfter(similarity, queries, heaps', before, qi, heap, multiset{candidate});
      heaps' := heaps'[qi := heap];
    }
  }

  lemma OwnOfferIs(similarity: Similarity, q: Query, e: CorpusEntry)
    ensures OwnOffer(similarity, q, e) == if e.neighborId == q.neighborId then multiset{}
      else multiset{CandidateFor(similarity, q, e)}
  {
  }

  // ---------------------------------------------------------------- the traversal

  /** Every id the traversal can meet. */
  function Ids(store: Store, root: BlockId): set<BlockId> {
    {root} + store.Keys + set b, c | b in store && c in store[b].entries :: c
  }

  ghost predicate ChildrenMet(store: Store, order: seq<BlockId>, i: nat)
    requires i < |order|
  {
    forall c :: c in EntriesOf(store, order[i]) ==> c in order
  }

  /** The blocks handled so far, in order: each once, and reachable from the root. */
  ghost predicate Handled(store: Store, root: BlockId, visited: set<BlockId>, order: seq<BlockId>) {
    && (forall b :: b in visited <==> b in order)
    && (forall i, j :: 0 <= i < j < |order| ==> order[i] != order[j])
    && (forall b :: b in order ==> Reach(StoreGraph(store), root, b) && b in Ids(store, root))
  }

  /** Blocks handled since then have had their children handled. */
  ghost predicate Explored(store: Store, before: nat, order: seq<BlockId>) {
    forall i :: before <= i < |order| ==> ChildrenMet(store, order, i)
  }

  lemma HandledMore(store: Store, root: BlockId, visited: set<BlockId>, order: seq<BlockId>, b: BlockId)
    requires Handled(store, root, visited, order) && b !in visited && Reach(StoreGraph(store), root, b)
    requires b in Ids(store, root)
    ensures Handled(store, root, visited + {b}, order + [b])
  {
    hide Reach;
  }

  lemma ChildIsReachable(store: Store, root: BlockId, b: BlockId, c: BlockId)
    requires Reach(StoreGraph(store), root, b) && c in EntriesOf(store, b)
    ensures Reach(StoreGraph(store), root, c) && c in Ids(store, root)
  {
    ReachStep(StoreGraph(store), root, b, c);
  }

  lemma ExploredOn(store: Store, before: nat, order: seq<BlockId>, order': seq<BlockId>)
    requires Explored(store, before, order) && order <= order' && Explored(store, |order|, order')
    ensures Explored(store, before, order')
  {
    forall i | before <= i < |order'| ensures ChildrenMet(store, order', i) {
      if i < |order| { assert ChildrenMet(store, order, i); }
    }
  }

  /** With nothing left to explore, the stored blocks handled are the reachable ones. */
  lemma ExploredAll(store: Store, root: BlockId, visited: set<BlockId>, order: seq<BlockId>, b: BlockId)
    requires Handled(store, root, visited, order) && Explored(store, 0, order) && root in order
    ensures b in order <==> Reach(StoreGraph(store), root, b)
  {
    if Reach(StoreGraph(store), root, b) {
      forall u, v | u in visited && v in ChildrenIn(StoreGraph(store), u) ensures v in visited {
        var i :| 0 <= i < |order| && order[i] == u;
        assert ChildrenMet(store, order, i);
      }
      ClosedHoldsReach(StoreGraph(store), visited, root, b);
    }
  }

  lemma OffersOfBlock(similarity: Similarity, leaves: Leaves, queries: seq<Query>, order: seq<BlockId>, b: BlockId)
    ensures CorpusForAll(similarity, leaves, queries, order + [b])
         == AddOffers(CorpusForAll(similarity, leaves, queries, order),
             OffersToAll(similarity, queries, Usable(b, EntriesIn(leaves, b))))
  {
    forall i | 0 <= i < |queries|
      ensures Corpus(similarity, leaves, queries[i], order + [b])
           == Corpus(similarity, leaves, queries[i], order) +
             Offers(similarity, queries[i], Usable(b, EntriesIn(leaves, b)))
    {
      GatherConcat(order, [b], BlockOffers(similarity, leaves, queries[i]));
      GatherOne(b, BlockOffers(similarity, leaves, queries[i]));
    }
  }

  lemma OffersOfBatches(similarity: Similarity, queries: seq<Query>, offered: seq<multiset<Candidate>>,
                        a: seq<CorpusEntry>, b: seq<CorpusEntry>)
    requires |offered| == |queries|
    ensures AddOffers(AddOffers(offered, OffersToAll(similarity, queries, a)), OffersToAll(similarity, queries, b))
         == AddOffers(offered, OffersToAll(similarity, queries, a + b))
  {
    forall i | 0 <= i < |queries|
      ensures (offered[i] + Offers(similarity, queries[i], a)) + Offers(similarity, queries[i], b) ==
        offered[i] + Offers(similarity, queries[i], a + b)
    {
      OffersConcat(similarity, queries[i], a, b);
    }
  }

  predicate EntryScorable(o: Obstacles, queries: seq<Query>, leaf: BlockId, e: LeafEntry) {
    e.wellFormed && (e.hasMagnitude ==> Scorable(o, queries, EntryOf(leaf, e)))
  }

  /** All entries meet the leaf's specification and can be scored. */
  ghost predicate LeafScorable(o: Obstacles, queries: seq<Query>, leaf: BlockId, entries: seq<LeafEntry>) {
    forall e :: e in entries ==> EntryScorable(o, queries, leaf, e)
  }

  predicate AllWellFormed(entries: seq<LeafEntry>) {
    forall e :: e in entries ==> e.wellFormed
  }

  lemma {:induction false} UsableAre(leaf: BlockId, entries: seq<LeafEntry>, c: CorpusEntry)
    ensures c in Usable(leaf, entries) <==>
      exists e :: e in entries && e.hasMagnitude && c == CorpusEntry(e.neighborId, leaf, e.embedding)
  {
    if entries != [] {
      UsableAre(leaf, entries[1..], c);
      assert entries == [entries[0]] + entries[1..];
    }
  }

  /** A leaf can be scored if and only if it is well-formed and its usable entries can be. */
  lemma LeafScorableIff(o: Obstacles, queries: seq<Query>, leaf: BlockId, entries: seq<LeafEntry>)
    ensures LeafScorable(o, queries, leaf, entries) <==>
      AllWellFormed(entries) && AllScorable(o, queries, Usable(leaf, entries))
  {
    hide Scorable;
    if LeafScorable(o, queries, leaf, entries) {
      forall c | c in Usable(leaf, entries) ensures Scorable(o, queries, c) { UsableAre(leaf, entries, c); }
    } else {
      var e :| e in entries && !EntryScorable(o, queries, leaf, e);
      UsableAre(leaf, entries, EntryOf(leaf, e));
    }
  }

  lemma LeafScorableSplits(o: Obstacles, queries: seq<Query>, leaf: BlockId, a: seq<LeafEntry>, b: seq<LeafEntry>)
    ensures LeafScorable(o, queries, leaf, a + b) <==>
      LeafScorable(o, queries, leaf, a) && LeafScorable(o, queries, leaf, b)
  {
    hide EntryScorable;
    assert forall e :: e in a + b <==> e in a || e in b;
  }

  predicate Searchable(o: Obstacles, queries: seq<Query>, leaves: Leaves, b: BlockId) {
    b !in o.unread && forall e :: e in EntriesIn(leaves, b) ==> EntryScorable(o, queries, b, e)
  }

  /** Something that can be reached cannot be looked up or scored. */
  ghost predicate Obstructed(o: Obstacles, queries: seq<Query>, store: Store, leaves: Leaves, root: BlockId) {
    exists b :: Reach(StoreGraph(store), root, b) && !Searchable(o, queries, leaves, b)
  }

  ghost predicate AllSearchable(o: Obstacles, queries: seq<Query>, leaves: Leaves, visited: set<BlockId>) {
    forall b :: b in visited ==> Searchable(o, queries, leaves, b)
  }

  lemma SearchedIsReached(o: Obstacles, queries: seq<Query>, store: Store, leaves: Leaves, root: BlockId,
                          visited: set<BlockId>, order: seq<BlockId>)
    requires Handled(store, root, visited, order) && Explored(store, 0, order) && root in order
    ensures AllSearchable(o, queries, leaves, visited) <==> !Obstructed(o, queries, store, leaves, root)
  {
    hide Searchable, Reach;
    forall b ensures b in visited <==> Reach(StoreGraph(store), root, b) {
      ExploredAll(store, root, visited, order, b);
    }
  }

  class NeighborSearch {
    const similarity: Similarity
    const obstacles: Obstacles
    const store: Store
    const leaves: Leaves
    const queries: seq<Query>
    const root: BlockId
    var heaps: seq<multiset<Candidate>>
    var visited: set<BlockId>
    var loads: nat
    ghost var order: seq<BlockId>

    /** Every query holds the best of what the handled blocks offer it. */
    ghost predicate Current()
      reads this
    {
      && Handled(store, root, visited, order)
      && HeapsHold(similarity, queries, heaps, CorpusForAll(similarity, leaves, queries, order))
    }

    constructor (similarity: Similarity, obstacles: Obstacles, store: Store, leaves: Leaves, queries: seq<Query>,
                 root: BlockId)
      ensures Current() && order == [] && visited == {} && loads == 0
      ensures this.similarity == similarity && this.store == store && this.leaves == leaves
      ensures this.queries == queries && this.root == root && this.obstacles == obstacles
    {
      this.similarity, this.store, this.leaves, this.queries, this.root := similarity, store, leaves, queries, root;
      this.obstacles, loads := obstacles, 0;
      heaps := seq(|queries|, i => multiset{});
      visited, order := {}, [];
    }

    ghost predicate Calm(since: nat)
      reads this
    {
      Uninterrupted(obstacles.interrupted, since, loads)
    }

    /** Everything handled so far could be looked up and scored. */
    ghost predicate Clear()
      reads this
    {
      AllSearchable(obstacles, queries, leaves, visited)
    }

    method CheckForInterrupt() returns (ok: bool)
      modifies this`loads
      ensures loads == old(loads) + 1 && ok == !obstacles.interrupted(old(loads))
    {
      ok := !obstacles.interrupted(loads);
      loads := loads + 1;
    }

    /** Scores the usable entries of one leaf, batch by batch. */
    method ScoreLeaf(b: BlockId, ghost offered: seq<multiset<Candidate>>) returns (ok: bool)
      requires b in leaves && HeapsHold(similarity, queries, heaps, offered)
      modifies this`heaps, this`loads
      ensures ok ==> HeapsHold(similarity, queries, heaps,
          AddOffers(offered, OffersToAll(similarity, queries, Usable(b, leaves[b]))))
      ensures old(loads) <= loads
      ensures ok <==> Calm(old(loads)) && LeafScorable(obstacles, queries, b, leaves[b])
    {
      hide HeapsHold, AddOffers, Usable, LeafScorable, AllScorable, AllWellFormed;
      var entries := leaves[b];
      var start := 0;
      HeapCounts(similarity, queries, heaps, offered);
      NothingOffered(similarity, queries, offered, []);
      assert Usable(b, entries[..0]) == [] by { NoneUsable(b); }
      NoneScorable(obstacles, queries, b, entries[..0]);
      while start < |entries|
        invariant start <= |entries| && old(loads) <= loads && Calm(old(loads))
        invariant LeafScorable(obstacles, queries, b, entries[..start])
        invariant HeapsHold(similarity, queries, heaps,
            AddOffers(offered, OffersToAll(similarity, queries, Usable(b, entries[..start]))))
      {
        var end := if start + EXACT_SCORING_BATCH_SIZE < |entries| then start + EXACT_SCORING_BATCH_SIZE else |entries|;
        ghost var before := AddOffers(offered, OffersToAll(similarity, queries, Usable(b, entries[..start])));
        BatchSplits(b, entries, start, end);
        var collected, batch := Collect(b, entries[start..end]);
        if !collected { return false; }
        var scored, loads', more := ScoreExactBatch(similarity, obstacles, loads, batch, queries, heaps, before);
        loads := loads';
        if !scored { return false; }
        UsableConcat(b, entries[..start], entries[start..end]);
        OffersOfBatches(similarity, queries, offered, Usable(b, entries[..start]), batch);
        heaps := more;
        start := end;
      }
      assert entries[..|entries|] == entries;
      return true;
    }

    /** What a batch contributes to whether its leaf can be scored. */
    lemma BatchSplits(b: BlockId, entries: seq<LeafEntry>, start: nat, end: nat)
      requires start <= end <= |entries|
      ensures entries[..end] == entries[..start] + entries[start..end]
      ensures LeafScorable(obstacles, queries, b, entries[..end]) <==>
        LeafScorable(obstacles, queries, b, entries[..start]) &&
        LeafScorable(obstacles, queries, b, entries[start..end])
      ensures LeafScorable(obstacles, queries, b, entries) ==> LeafScorable(obstacles, queries, b, entries[start..end])
      ensures LeafScorable(obstacles, queries, b, entries[start..end]) <==>
        AllWellFormed(entries[start..end]) && AllScorable(obstacles, queries, Usable(b, entries[start..end]))
    {
      assert entries[..end] == entries[..start] + entries[start..end] && entries == entries[..end] + entries[end..];
      LeafScorableSplits(obstacles, queries, b, entries[..start], entries[start..end]);
      LeafScorableSplits(obstacles, queries, b, entries[..end], entries[end..]);
      LeafScorableIff(obstacles, queries, b, entries[start..end]);
    }

    /** The corpus entries of a batch; entries without magnitude are left out. */
    static method Collect(b: BlockId, entries: seq<LeafEntry>) returns (ok: bool, batch: seq<CorpusEntry>)
      ensures ok <==> AllWellFormed(entries)
      ensures ok ==> batch == Usable(b, entries)
    {
      batch := [];
      for i := 0 to |entries|
        invariant batch == Usable(b, entries[..i]) && AllWellFormed(entries[..i])
      {
        if !entries[i].wellFormed { return false, batch; }
        assert entries[..i + 1] == entries[..i] + [entries[i]];
        UsableConcat(b, entries[..i], [entries[i]]);
        assert [entries[i]][1..] == [];
        if entries[i].hasMagnitude { batch := batch + [EntryOf(b, entries[i])]; }
      }
      assert entries[..|entries|] == entries;
      return true, batch;
    }

    /** Handles one block and everything below it that has not been handled yet. It fails
        only when an interrupt is noticed or when something that can be reached cannot be
        looked up or scored. */
    method CollectFromBlock(b: BlockId) returns (ok: bool)
      requires Current() && Clear() && Reach(StoreGraph(store), root, b) && b in Ids(store, root)
      modifies this
      ensures ok ==> Current() && old(order) <= order && b in order && Explored(store, |old(order)|, order)
      ensures old(loads) <= loads && (ok ==> Calm(old(loads)) && Clear())
      ensures !ok ==> !Calm(old(loads)) || Obstructed(obstacles, queries, store, leaves, root)
      decreases Ids(store, root) - visited, 0
    {
      hide HeapsHold, CorpusForAll, AddOffers, Reach, Ids, ChildrenMet, Handled, Explored, Searchable;
      ok := CheckForInterrupt();
      if !ok { return; }
      HandledFacts(store, root, visited, order);
      if b in visited {
        NothingExplored(store, order);
        return true;
      }
      ghost var before := CorpusForAll(similarity, leaves, queries, order);
      HeapCounts(similarity, queries, heaps, before);
      HandledMore(store, root, visited, order, b);
      OffersOfBlock(similarity, leaves, queries, order, b);
      SearchableIff(obstacles, queries, leaves, b);
      visited := visited + {b};
      if b in obstacles.unread { return false; }
      if b in leaves {
        ok := ScoreLeaf(b, before);
        if !ok { return; }
      } else {
        NoLeafOffersNothing(similarity, leaves, queries, before, b, order);
      }
      order := order + [b];
      ok := CollectFromChildren(b);
      if ok { ExploredFrom(store, |old(order)|, order, b); }
    }

    method CollectFromChildren(b: BlockId) returns (ok: bool)
      requires Current() && Clear() && Reach(StoreGraph(store), root, b) && b in order
      modifies this
      ensures ok ==> Current() && old(order) <= order && Explored(store, |old(order)|, order)
      ensures ok ==> forall c :: c in EntriesOf(store, b) ==> c in order
      ensures old(loads) <= loads && (ok ==> Calm(old(loads)) && Clear())
      ensures !ok ==> !Calm(old(loads)) || Obstructed(obstacles, queries, store, leaves, root)
      decreases Ids(store, root) - visited, 1
    {
      hide HeapsHold, CorpusForAll, AddOffers, Reach, Ids, ChildrenMet, Handled, Explored, Searchable, Obstructed;
      hide AllSearchable;
      var children := EntriesOf(store, b);
      NothingExplored(store, order);
      for i := 0 to |children|
        invariant Current() && old(order) <= order && Explored(store, |old(order)|, order)
        invariant old(visited) <= visited && forall k :: 0 <= k < i ==> children[k] in order
        invariant old(loads) <= loads && Calm(old(loads)) && Clear()
      {
        ChildIsReachable(store, root, b, children[i]);
        ghost var entered, seen := order, visited;
        HandledFacts(store, root, visited, order);
        ok := CollectFromBlock(children[i]);
        if !ok { return; }
        HandledFacts(store, root, visited, order);
        ExploredOn(store, |old(order)|, entered, order);
      }
      return true;
    }

    /** The search succeeds if and only if no interrupt is noticed and all that can be
        reached can be looked up and scored. Then every query holds its best candidates
        among the entries of all reachable blocks, each block taken once. */
    method CollectExactNeighbors() returns (ok: bool)
      requires Current() && order == []
      modifies this
      ensures ok <==> Calm(old(loads)) && !Obstructed(obstacles, queries, store, leaves, root)
      ensures ok ==> Current() && Explored(store, 0, order) && root in order
      ensures ok ==> forall i, j :: 0 <= i < j < |order| ==> order[i] != order[j]
      ensures ok ==> forall b :: b in order <==> Reach(StoreGraph(store), root, b)
      ensures ok ==> AllTenBest(queries, heaps, CorpusForAll(similarity, leaves, queries, order))
    {
      hide HeapsHold, CorpusForAll, Searchable, Reach, Explored, Obstructed, AllTenBest;
      ReachSelf(StoreGraph(store), root);
      ok := CollectFromBlock(root);
      if ok {
        SearchedIsReached(obstacles, queries, store, leaves, root, visited, order);
        HeapsAreTenBest(similarity, queries, heaps, CorpusForAll(similarity, leaves, queries, order));
        forall b ensures b in order <==> Reach(StoreGraph(store), root, b) {
          ExploredAll(store, root, visited, order, b);
        }
      }
    }
  }

  lemma NoneScorable(o: Obstacles, queries: seq<Query>, leaf: BlockId, entries: seq<LeafEntry>)
    requires entries == []
    ensures LeafScorable(o, queries, leaf, entries)
  {
  }

  lemma SearchableIff(o: Obstacles, queries: seq<Query>, leaves: Leaves, b: BlockId)
    ensures Searchable(o, queries, leaves, b) <==>
      b !in o.unread && (b in leaves ==> LeafScorable(o, queries, b, leaves[b]))
  {
  }

  lemma NoneUsable(b: BlockId)
    ensures Usable(b, []) == []
  {
  }

  lemma HandledFacts(store: Store, root: BlockId, visited: set<BlockId>, order: seq<BlockId>)
    requires Handled(store, root, visited, order)
    ensures forall b :: b in visited <==> b in order
    ensures visited <= Ids(store, root)
  {
  }

  lemma NothingExplored(store: Store, order: seq<BlockId>)
    ensures Explored(store, |order|, order)
  {
  }

  lemma ExploredFrom(store: Store, before: nat, order: seq<BlockId>, b: BlockId)
    requires before < |order| && order[before] == b && Explored(store, before + 1, order)
    requires forall c :: c in EntriesOf(store, b) ==> c in order
    ensures Explored(store, before, order)
  {
  }

  lemma NoLeafOffersNothing(similarity: Similarity, leaves: Leaves, queries: seq<Query>,
                            offered: seq<multiset<Candidate>>, b: BlockId, order: seq<BlockId>)
    requires b !in leaves && |offered| == |queries|
    ensures AddOffers(offered, OffersToAll(similarity, queries, Usable(b, EntriesIn(leaves, b)))) == offered
  {
    NothingOffered(similarity, queries, offered, []);
  }

  // ------------------------------------------------- independence of the traversal

  lemma {:induction false} SameMembersSameGather(xs: seq<BlockId>, ys: seq<BlockId>, f: BlockId -> multiset<Candidate>)
    requires forall b :: b in xs <==> b in ys
    requires forall i, j :: 0 <= i < j < |xs| ==> xs[i] != xs[j]
    requires forall i, j :: 0 <= i < j < |ys| ==> ys[i] != ys[j]
    ensures Gather(xs, f) == Gather(ys, f)
  {
    hide Gather;
    if xs == [] {
      if ys != [] { FirstIsMember(ys); }
    } else {
      var x := xs[0];
      assert x in ys;
      var k :| 0 <= k < |ys| && ys[k] == x;
      var rest := ys[..k] + ys[k + 1..];
      GatherWithout(ys, k, f);
      assert xs[..0] + xs[1..] == xs[1..];
      GatherWithout(xs, 0, f);
      forall b ensures b in xs[1..] <==> b in rest {
        assert b in xs <==> b == x || b in xs[1..];
      }
      SameMembersSameGather(xs[1..], rest, f);
    }
  }

  /** The heap of a query depends on nothing but the reachable corpus: any enumeration of
      the reachable blocks, each once, gives the same best candidates. */
  lemma NeighborsAreDetermined(similarity: Similarity, store: Store, leaves: Leaves, root: BlockId, q: Query,
                               visited: set<BlockId>, order: seq<BlockId>, blocks: seq<BlockId>,
                               heap: multiset<Candidate>, other: multiset<Candidate>)
    requires Handled(store, root, visited, order) && Explored(store, 0, order) && root in order
    requires Best(Better, heap, Corpus(similarity, leaves, q, order), MAX_EXACT_NEIGHBORS)
    requires forall b :: b in blocks <==> Reach(StoreGraph(store), root, b)
    requires forall i, j :: 0 <= i < j < |blocks| ==> blocks[i] != blocks[j]
    requires Best(Better, other, Corpus(similarity, leaves, q, blocks), MAX_EXACT_NEIGHBORS)
    ensures heap == other && TenBest(heap, Corpus(similarity, leaves, q, blocks))
  {
    hide Best, Reach, TenBest;
    BestAreTenBest(other, Corpus(similarity, leaves, q, blocks));
    forall b ensures b in order <==> b in blocks {
      ExploredAll(store, root, visited, order, b);
    }
    SameMembersSameGather(order, blocks, BlockOffers(similarity, leaves, q));
    BetterIsTotal(Corpus(similarity, leaves, q, order));
    UniqueWithoutTies(Better, heap, other, Corpus(similarity, leaves, q, order), MAX_EXACT_NEIGHBORS);
  }

  /** The corpus a query is compared with: the entries of the blocks that have a magnitude
      and are not the query's own, each with its leaf and its similarity to the query. */
  lemma {:induction false} CorpusIs(similarity: Similarity, leaves: Leaves, q: Query, blocks: seq<BlockId>,
                                    c: Candidate)
    ensures c in Corpus(similarity, leaves, q, blocks) <==>
      exists b, e :: b in blocks && e in EntriesIn(leaves, b) && Offered(similarity, q, b, e, c)
  {
    if blocks != [] {
      var b, rest := blocks[0], blocks[1..];
      CorpusIs(similarity, leaves, q, rest, c);
      BlockOffersAre(similarity, leaves, q, b, c);
      hide Offered, EntriesIn;
      assert blocks == [b] + rest;
    }
  }

  predicate Offered(similarity: Similarity, q: Query, leaf: BlockId, e: LeafEntry, c: Candidate) {
    && e.hasMagnitude && e.neighborId != q.neighborId
    && c == Candidate(similarity(q.embedding, e.embedding), leaf, e.neighborId)
  }

  lemma BlockOffersAre(similarity: Similarity, leaves: Leaves, q: Query, b: BlockId, c: Candidate)
    ensures c in BlockOffers(similarity, leaves, q)(b) <==>
      exists e :: e in EntriesIn(leaves, b) && Offered(similarity, q, b, e, c)
  {
    var corpus := Usable(b, EntriesIn(leaves, b));
    OffersAre(similarity, q, corpus, c);
    if c in Offers(similarity, q, corpus) {
      var i :| 0 <= i < |corpus| && corpus[i].neighborId != q.neighborId && c == CandidateFor(similarity, q, corpus[i]);
      UsableAre(b, EntriesIn(leaves, b), corpus[i]);
      var e :| e in EntriesIn(leaves, b) && e.hasMagnitude && corpus[i] == CorpusEntry(e.neighborId, b, e.embedding);
      assert Offered(similarity, q, b, e, c);
    }
    if e :| e in EntriesIn(leaves, b) && Offered(similarity, q, b, e, c) {
      var entry := CorpusEntry(e.neighborId, b, e.embedding);
      UsableAre(b, EntriesIn(leaves, b), entry);
      var i :| 0 <= i < |corpus| && corpus[i] == entry;
    }
  }

  /** What is offered to a query: one candidate per usable entry for somebody else. */
  lemma {:induction false} OffersAre(similarity: Similarity, q: Query, corpus: seq<CorpusEntry>, c: Candidate)
    ensures c in Offers(similarity, q, corpus) <==>
      exists i :: 0 <= i < |corpus| && corpus[i].neighborId != q.neighborId &&
        c == CandidateFor(similarity, q, corpus[i])
  {
    if corpus != [] {
      OffersAre(similarity, q, corpus[1..], c);
      if c in Offers(similarity, q, corpus[1..]) {
        var i :| 0 <= i < |corpus[1..]| && corpus[1..][i].neighborId != q.neighborId &&
          c == CandidateFor(similarity, q, corpus[1..][i]);
        assert corpus[i + 1] == corpus[1..][i];
      }
      if exists i ::
        0 <= i < |corpus| && corpus[i].neighborId != q.neighborId && c == CandidateFor(similarity, q, corpus[i])
      {
        var i :| 0 <= i < |corpus| && corpus[i].neighborId != q.neighborId &&
          c == CandidateFor(similarity, q, corpus[i]);
        if i > 0 { assert corpus[1..][i - 1] == corpus[i]; }
      }
    }
  }
}
