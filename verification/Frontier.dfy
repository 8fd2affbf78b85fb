/** The traversal frontier: why a copy that ran to its end has visited exactly the blocks
    reachable from its roots, although each block is expanded for one root only. */
module Frontier {
  import opened BlockGraph
  import opened FailureTracker
  import opened Ledger
  import opened WorkQueue

  /** Pairs still to be noted, blocks noted but not yet offered to the visited set, and
      visited blocks whose children are not yet queued. */
  datatype Front = Front(awaited: set<Item>, visiting: set<BlockId>, expanding: set<BlockId>)

  const NoFront := Front({}, {}, {})

  ghost predicate Genuine(env: Env, root: BlockId, b: BlockId) {
    root in env.roots && Reach(SourceGraph(env.source), root, b)
  }

  ghost predicate IsNoted(log: FailureLog, b: BlockId) {
    exists root :: (root, b) in log.noted
  }

  /** Nothing unreachable is ever queued, noted or visited. */
  ghost predicate OnTrack(env: Env, l: Ledger, f: Front) {
    && (forall item :: item in f.awaited ==> Genuine(env, item.root, item.block))
    && (forall pair :: pair in l.log.noted ==> Genuine(env, pair.0, pair.1))
    && (forall b :: b in l.visited ==> IsNoted(l.log, b))
  }

  ghost predicate Awaits(f: Front, b: BlockId) {
    b in f.visiting || exists item :: item in f.awaited && item.block == b
  }

  ghost predicate Expected(l: Ledger, f: Front, b: BlockId, c: BlockId) {
    b in f.expanding || c in l.visited || Awaits(f, c)
  }

  /** Every root is noted or waits to be; every noted block is visited or about to be;
      every child of an expanded block is visited or waits. */
  ghost predicate Covers(env: Env, l: Ledger, f: Front) {
    && (forall root :: root in env.roots ==> (root, root) in l.log.noted || Item(root, root) in f.awaited)
    && (forall pair :: pair in l.log.noted ==> pair.1 in l.visited || pair.1 in f.visiting)
    && (forall b, c :: b in l.visited && c in ChildrenOf(env.source, b) ==> Expected(l, f, b, c))
  }

  lemma OpenedFront(env: Env)
    ensures OnTrack(env, Opened(env), Front(set item | item in RootItems(env.roots), {}, {}))
    ensures Covers(env, Opened(env), Front(set item | item in RootItems(env.roots), {}, {}))
  {
    var items := RootItems(env.roots);
    forall item | item in items ensures Genuine(env, item.root, item.block) {
      ReachSelf(SourceGraph(env.source), item.root);
    }
    forall root | root in env.roots ensures Item(root, root) in items {
      var i :| 0 <= i < |env.roots| && env.roots[i] == root;
      assert items[i] == Item(root, root);
    }
  }

  lemma NoteKeepsOnTrack(env: Env, l: Ledger, f: Front, f': Front, item: Item)
    requires OnTrack(env, l, f) && item in f.awaited && f'.awaited <= f.awaited
    ensures OnTrack(env, NoteAt(l, item.root, item.block), f')
  {
    hide Reach;
    var l' := NoteAt(l, item.root, item.block);
    forall b | b in l'.visited ensures IsNoted(l'.log, b) {
      assert IsNoted(l.log, b);
      var root :| (root, b) in l.log.noted;
      assert (root, b) in l'.log.noted;
    }
  }

  lemma NoteKeepsCovers(env: Env, l: Ledger, f: Front, f': Front, item: Item)
    requires Covers(env, l, f) && f.awaited <= f'.awaited + {item}
    requires f.visiting + {item.block} <= f'.visiting && f.expanding <= f'.expanding
    ensures Covers(env, NoteAt(l, item.root, item.block), f')
  {
    forall b, c | b in l.visited && c in ChildrenOf(env.source, b)
      ensures Expected(NoteAt(l, item.root, item.block), f', b, c)
    {
      assert Expected(l, f, b, c);
      if Awaits(f, c) && c !in f.visiting {
        var it :| it in f.awaited && it.block == c;
        assert it == item || it in f'.awaited;
      }
    }
  }

  lemma VisitKeepsOnTrack(env: Env, l: Ledger, f: Front, f': Front, b: BlockId)
    requires OnTrack(env, l, f) && IsNoted(l.log, b) && f'.awaited <= f.awaited
    ensures OnTrack(env, Visit(l, b), f')
  {
    hide Reach;
  }

  /** The block was visited now or before; if now, its children are still to be queued. */
  lemma VisitKeepsCovers(env: Env, l: Ledger, f: Front, f': Front, b: BlockId)
    requires Covers(env, l, f) && f.awaited <= f'.awaited && f.visiting <= f'.visiting + {b}
    requires f.expanding <= f'.expanding
    requires b !in l.visited ==> b in f'.expanding
    ensures Covers(env, Visit(l, b), f')
  {
    forall x, c | x in Visit(l, b).visited && c in ChildrenOf(env.source, x)
      ensures Expected(Visit(l, b), f', x, c)
    {
      if x != b || b in l.visited {
        assert Expected(l, f, x, c);
        if Awaits(f, c) && c !in f.visiting {
          var it :| it in f.awaited && it.block == c;
          assert it in f'.awaited;
        }
      }
    }
  }

  /** Steps that leave the noted pairs, the visited set and the pending items alone. */
  lemma QuietKeepsFront(env: Env, l: Ledger, f: Front, l': Ledger, f': Front)
    requires l'.visited == l.visited && l'.log.noted == l.log.noted
    requires f'.awaited == f.awaited && f.visiting <= f'.visiting && f.expanding <= f'.expanding
    ensures OnTrack(env, l, f) ==> OnTrack(env, l', f')
    ensures Covers(env, l, f) ==> Covers(env, l', f')
  {
    hide Reach;
    if OnTrack(env, l, f) {
      forall b | b in l'.visited ensures IsNoted(l'.log, b) { assert IsNoted(l.log, b); }
    }
    if Covers(env, l, f) {
      forall x, c | x in l.visited && c in ChildrenOf(env.source, x)
        ensures Expected(l', f', x, c)
      {
        assert Expected(l, f, x, c);
        if Awaits(f, c) && c !in f.visiting {
          var it :| it in f.awaited && it.block == c;
          assert it in f'.awaited;
        }
      }
    }
  }

  /** A block without children needs no expansion. */
  lemma BarrenKeepsCovers(env: Env, l: Ledger, f: Front, l': Ledger, f': Front, b: BlockId)
    requires Covers(env, l, f) && ChildrenOf(env.source, b) == []
    requires l'.visited == l.visited && l'.log.noted == l.log.noted
    requires f.awaited <= f'.awaited && f.visiting <= f'.visiting && f.expanding <= f'.expanding + {b}
    ensures Covers(env, l', f')
  {
    SpreadKeepsCovers(env, l, f, l', f', b, b);
  }

  lemma SpreadKeepsOnTrack(env: Env, l: Ledger, f: Front, f': Front, root: BlockId, b: BlockId)
    requires OnTrack(env, l, f) && Genuine(env, root, b)
    requires forall item :: item in f'.awaited ==> item in f.awaited || item in Items(root, ChildrenOf(env.source, b))
    ensures OnTrack(env, l, f')
  {
    var g := SourceGraph(env.source);
    forall item | item in f'.awaited ensures Genuine(env, item.root, item.block) {
      if item !in f.awaited {
        var items := Items(root, ChildrenOf(env.source, b));
        var i :| 0 <= i < |items| && items[i] == item;
        SourceGraphChildren(env.source, b);
        ReachStep(g, root, b, item.block);
      }
    }
  }

  /** Queueing every child of a block expands it. */
  lemma SpreadKeepsCovers(env: Env, l: Ledger, f: Front, l': Ledger, f': Front, root: BlockId, b: BlockId)
    requires Covers(env, l, f) && l'.visited == l.visited && l'.log.noted == l.log.noted
    requires f.awaited <= f'.awaited && f.visiting <= f'.visiting && f.expanding <= f'.expanding + {b}
    requires forall item :: item in Items(root, ChildrenOf(env.source, b)) ==> item in f'.awaited
    ensures Covers(env, l', f')
  {
    var ids := ChildrenOf(env.source, b);
    forall x, c | x in l.visited && c in ChildrenOf(env.source, x)
      ensures Expected(l', f', x, c)
    {
      assert Expected(l, f, x, c);
      if x == b {
        var i :| 0 <= i < |ids| && ids[i] == c;
        assert Items(root, ids)[i] == Item(root, c);
        assert Item(root, c) in f'.awaited;
      } else if Awaits(f, c) && c !in f.visiting {
        var it :| it in f.awaited && it.block == c;
        assert it in f'.awaited;
      }
    }
  }

  // ------------------------------------------------------------- at the end of a run

  /** With nothing pending the visited set is exactly the reachable set. */
  lemma NothingPending(env: Env, l: Ledger)
    requires OnTrack(env, l, NoFront) && Covers(env, l, NoFront)
    ensures l.visited == ReachableSet(env.source, env.roots)
  {
    forall b | b in l.visited ensures ReachFromAny(SourceGraph(env.source), env.roots, b) {
      VisitedIsReachable(env, l, b);
    }
    forall b | ReachFromAny(SourceGraph(env.source), env.roots, b) ensures b in l.visited {
      ReachableIsVisited(env, l, b);
    }
  }

  lemma VisitedIsReachable(env: Env, l: Ledger, b: BlockId)
    requires OnTrack(env, l, NoFront) && b in l.visited
    ensures ReachFromAny(SourceGraph(env.source), env.roots, b)
  {
    hide Reach;
    assert IsNoted(l.log, b);
    var root :| (root, b) in l.log.noted;
    assert Genuine(env, (root, b).0, (root, b).1);
  }

  lemma ReachableIsVisited(env: Env, l: Ledger, b: BlockId)
    requires Covers(env, l, NoFront) && ReachFromAny(SourceGraph(env.source), env.roots, b)
    ensures b in l.visited
  {
    hide Reach;
    VisitedIsClosed(env, l);
    var root :| root in env.roots && Reach(SourceGraph(env.source), root, b);
    assert (root, root).1 in l.visited;
    ClosedHoldsReach(SourceGraph(env.source), l.visited, root, b);
  }

  /** The tracker attributes a block to a root exactly when the root was requested and
      reaches the block, whichever root happened to expand it. */
  lemma AttributionIsReachability(env: Env, l: Ledger, root: BlockId, b: BlockId)
    requires OnTrack(env, l, NoFront) && Covers(env, l, NoFront) && ChildrenKnown(env.source, l, NoParts)
    ensures Attributed(l.log, root, b) <==> Genuine(env, root, b)
  {
    var g := SourceGraph(env.source);
    forall x, y | y in ChildrenIn(l.log.children, x) ensures y in ChildrenIn(g, x) {
      SourceGraphChildren(env.source, x);
    }
    if Attributed(l.log, root, b) {
      var start :| (root, start) in l.log.noted && Reach(l.log.children, start, b);
      assert Genuine(env, (root, start).0, (root, start).1);
      ReachMonotone(l.log.children, g, start, b);
      ReachTransitive(g, root, start, b);
    }
    if Genuine(env, root, b) {
      NothingPending(env, l);
      assert (root, root).1 in l.visited;
      forall x | x in l.visited ensures ChildrenIn(g, x) == ChildrenIn(l.log.children, x) {
        SourceGraphChildren(env.source, x);
        assert x in l.log.children <==> Readable(env.source, x);
      }
      VisitedIsClosed(env, l);
      ReachInside(g, l.log.children, l.visited, root, b);
    }
  }

  lemma VisitedIsClosed(env: Env, l: Ledger)
    requires Covers(env, l, NoFront)
    ensures ClosedUnder(SourceGraph(env.source), l.visited)
  {
    forall b, c | b in l.visited && c in ChildrenIn(SourceGraph(env.source), b) ensures c in l.visited {
      SourceGraphChildren(env.source, b);
      assert Expected(l, NoFront, b, c);
    }
  }

  /** Two graphs that agree on a closed set have the same paths from inside it. */
  lemma ReachInside(g: Graph, h: Graph, s: set<BlockId>, a: BlockId, b: BlockId)
    requires a in s && ClosedUnder(g, s) && Reach(g, a, b)
    requires forall x :: x in s ==> ChildrenIn(g, x) == ChildrenIn(h, x)
    ensures Reach(h, a, b)
  {
    var p :| IsPath(g, p) && p[0] == a && p[|p| - 1] == b;
    forall i | 0 <= i < |p| - 1 && p[i] in s ensures p[i + 1] in s {
      assert p[i + 1] in ChildrenIn(g, p[i]);
    }
    forall i | 0 <= i < |p| - 1 ensures p[i + 1] in ChildrenIn(h, p[i]) {
      ClosedHoldsPath(g, s, p, i);
      assert p[i + 1] in ChildrenIn(g, p[i]);
    }
    assert IsPath(h, p);
  }
}
