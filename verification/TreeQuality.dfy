/** The structural part of the tree quality assessment: a depth-first walk that visits
    every stored block below a root and classifies every branch entry it meets. */
module TreeQuality {
  import opened Options
  import opened BlockGraph
  import opened Tallies

  /** What the store holds for a block: its level, the embedding space its entries are
      compared in, and the children its entries name (none for a leaf). */
  datatype Stored = Stored(level: nat, spec: nat, entries: seq<BlockId>)

  type Store = map<BlockId, Stored>

  datatype FindingKind =
    | MissingChildBlock
    | ChildLevelNotLowerThanParent
    | EmbeddingSpecMismatch
    | CycleDetected
    | SharedChildReference

  datatype Finding = Finding(kind: FindingKind, block: BlockId, parent: BlockId)

  function EntriesOf(store: Store, b: BlockId): seq<BlockId> {
    if b in store then store[b].entries else []
  }

  function StoreGraph(store: Store): Graph {
    map b | b in store :: store[b].entries
  }

  /** A branch entry: the block it is in, and its index there. */
  datatype Entry = Entry(parent: BlockId, index: nat)

  predicate IsEntry(store: Store, e: Entry) {
    e.index < |EntriesOf(store, e.parent)|
  }

  function ChildOf(store: Store, e: Entry): BlockId
    requires IsEntry(store, e)
  {
    EntriesOf(store, e.parent)[e.index]
  }

  /** What can end a walk early: the answers to the loads of the interrupt flag, the ids
      whose look-up fails, and the blocks whose metrics or entries are refused. */
  datatype Hazards = Hazards(interrupted: nat -> bool, unread: set<BlockId>, refused: set<BlockId>)

  /** None of these loads of the flag found it set. */
  ghost predicate Uninterrupted(interrupted: nat -> bool, from: nat, to: nat) {
    forall k :: from <= k < to ==> !interrupted(k)
  }

  predicate Fine(store: Store, h: Hazards, b: BlockId) {
    b !in h.unread && (b in store ==> b !in h.refused)
  }

  // ------------------------------------------------------------- what is to be found out

  ghost predicate Reachable(store: Store, root: BlockId, b: BlockId) {
    b in store && Reach(StoreGraph(store), root, b)
  }

  /** Some directed cycle can be reached from the root. */
  ghost predicate HasCycle(store: Store, root: BlockId) {
    exists p :: IsPath(StoreGraph(store), p) && |p| >= 2 && p[0] == p[|p| - 1] && Reach(StoreGraph(store), root, p[0])
  }

  /** The blocks below the root form a tree: every entry's child is stored, no entry leads
      to the root, and no two entries lead to the same block. */
  ghost predicate IsTree(store: Store, root: BlockId) {
    && (forall e :: ReachableEntry(store, root, e) ==> ChildOf(store, e) in store && ChildOf(store, e) != root)
    && (forall e, f ::
          ReachableEntry(store, root, e) && ReachableEntry(store, root, f) && ChildOf(store, e) == ChildOf(store, f)
          ==> e == f)
  }

  ghost predicate ReachableEntry(store: Store, root: BlockId, e: Entry) {
    Reachable(store, root, e.parent) && IsEntry(store, e)
  }

  // ------------------------------------------------------------------------ the walk

  /** `finished` lists the blocks whose entries have all been handled, in that order, and
      `entryOf` the entry through which each block was first met. */
  datatype Walk = Walk(
    visited: set<BlockId>,
    ancestry: seq<BlockId>,
    findings: seq<Finding>,
    edgeCount: nat,
    blocks: seq<BlockId>,
    finished: seq<BlockId>,
    entryOf: map<BlockId, Entry>)

  const Fresh := Walk({}, [], [], 0, [], [], map[])

  predicate IsStructural(kind: FindingKind) {
    kind.MissingChildBlock? || kind.CycleDetected? || kind.SharedChildReference?
  }

  function Structural(f: Finding): nat { if IsStructural(f.kind) then 1 else 0 }

  function EntryCount(store: Store): BlockId -> nat { b => |EntriesOf(store, b)| }

  ghost predicate Partitioned(w: Walk) {
    && (forall b :: b in w.visited <==> b in w.ancestry || b in w.finished)
    && (forall b :: b in w.ancestry ==> b !in w.finished)
    && (forall i, j :: 0 <= i < j < |w.finished| ==> w.finished[i] != w.finished[j])
    && (forall i, j :: 0 <= i < j < |w.ancestry| ==> w.ancestry[i] != w.ancestry[j])
  }

  /** The ancestry is a path from the root. */
  ghost predicate Stacked(store: Store, root: BlockId, w: Walk) {
    w.ancestry != [] ==> w.ancestry[0] == root && IsPath(StoreGraph(store), w.ancestry)
  }

  ghost predicate Placed(store: Store, root: BlockId, w: Walk) {
    forall b :: b in w.visited ==> Reachable(store, root, b)
  }

  ghost predicate ReportedAs(findings: seq<Finding>, kind: FindingKind, child: BlockId, parent: BlockId) {
    Finding(kind, child, parent) in findings
  }

  /** An entry has been classified. A stored child is finished before its parent unless the
      entry closes a cycle, and only the entry that found the child goes without a finding. */
  ghost predicate Settled(store: Store, w: Walk, before: seq<BlockId>, e: Entry)
    requires IsEntry(store, e)
  {
    var v := ChildOf(store, e);
    if v !in store then ReportedAs(w.findings, MissingChildBlock, v, e.parent)
    else
      && (v in before || ReportedAs(w.findings, CycleDetected, v, e.parent))
      && ((v in w.entryOf && w.entryOf[v] == e) || ReportedAs(w.findings, CycleDetected, v, e.parent)
          || ReportedAs(w.findings, SharedChildReference, v, e.parent))
  }

  ghost predicate Ordered(store: Store, w: Walk) {
    forall j, i :: 0 <= j < |w.finished| && 0 <= i < |EntriesOf(store, w.finished[j])|
      ==> Settled(store, w, w.finished[..j], Entry(w.finished[j], i))
  }

  ghost predicate Entered(store: Store, root: BlockId, w: Walk) {
    && (forall b :: b in w.entryOf <==> b in w.visited && b != root)
    && (forall b :: b in w.entryOf ==>
         IsEntry(store, w.entryOf[b]) && ChildOf(store, w.entryOf[b]) == b && w.entryOf[b].parent in w.visited)
  }

  /** Every structural finding is about an entry of a visited block that is really missing
      its child, closes a cycle, or is not the one that found its child. */
  ghost predicate Justified(store: Store, root: BlockId, w: Walk, f: Finding, e: Entry) {
    && e.parent == f.parent && e.parent in w.visited && IsEntry(store, e) && ChildOf(store, e) == f.block
    && match f.kind {
      case MissingChildBlock => f.block !in store
      case CycleDetected => NotTheFinder(root, w, f.block, e) && Reach(StoreGraph(store), f.block, f.parent)
      case SharedChildReference => NotTheFinder(root, w, f.block, e)
      case _ => false
    }
  }

  ghost predicate NotTheFinder(root: BlockId, w: Walk, b: BlockId, e: Entry) {
    b in w.visited && (b == root || (b in w.entryOf && w.entryOf[b] != e))
  }

  ghost predicate Witnessed(store: Store, root: BlockId, w: Walk) {
    forall f :: f in w.findings && IsStructural(f.kind) ==> exists e :: Justified(store, root, w, f, e)
  }

  /** The level and embedding comparisons were made exactly along the entries that found a block. */
  ghost predicate Compared(store: Store, w: Walk) {
    && (forall b, u :: ReportedAs(w.findings, ChildLevelNotLowerThanParent, b, u) <==>
          b in w.entryOf && w.entryOf[b].parent == u && b in store && u in store && store[b].level >= store[u].level)
    && (forall b, u :: ReportedAs(w.findings, EmbeddingSpecMismatch, b, u) <==>
          b in w.entryOf && w.entryOf[b].parent == u && b in store && u in store && store[b].spec != store[u].spec)
  }

  ghost predicate Listed(w: Walk) {
    && (forall b :: b in w.visited <==> b in w.blocks)
    && (forall i, j :: 0 <= i < j < |w.blocks| ==> w.blocks[i] != w.blocks[j])
  }

  ghost predicate Inv(store: Store, root: BlockId, w: Walk) {
    && Partitioned(w) && Stacked(store, root, w) && Placed(store, root, w) && Ordered(store, w)
    && Entered(store, root, w) && Witnessed(store, root, w) && Compared(store, w) && Listed(w)
  }

  /** Entries met so far that found a block or a problem, against blocks and problems found. */
  function Surplus(w: Walk): int { |w.visited| + Tally(w.findings, Structural) - w.edgeCount }

  /** Entries counted beyond those of the finished blocks. */
  function Excess(store: Store, w: Walk): int { w.edgeCount - Tally(w.finished, EntryCount(store)) }

  ghost predicate Grows(w: Walk, w': Walk) {
    && w.visited <= w'.visited && w'.ancestry == w.ancestry
    && w.finished <= w'.finished && w.findings <= w'.findings
    && (forall b :: b in w.entryOf ==> b in w'.entryOf && w'.entryOf[b] == w.entryOf[b])
  }

  // ---------------------------------------------------------------------- its steps

  function Report(w: Walk, kind: FindingKind, child: BlockId, parent: BlockId): Walk {
    w.(findings := w.findings + [Finding(kind, child, parent)])
  }

  function Enter(w: Walk, b: BlockId): Walk {
    w.(visited := w.visited + {b}, ancestry := w.ancestry + [b], blocks := w.blocks + [b])
  }

  /** Entering a child through an entry, with the comparisons against the parent. */
  function EnterThrough(store: Store, w: Walk, b: BlockId, e: Entry): Walk
    requires b in store && e.parent in store
  {
    var entered := Enter(w, b).(entryOf := w.entryOf[b := e]);
    var levelled := if store[b].level >= store[e.parent].level
                    then Report(entered, ChildLevelNotLowerThanParent, b, e.parent) else entered;
    if store[b].spec != store[e.parent].spec then Report(levelled, EmbeddingSpecMismatch, b, e.parent) else levelled
  }

  function Leave(w: Walk, b: BlockId): Walk
    requires w.ancestry != []
  {
    w.(ancestry := w.ancestry[..|w.ancestry| - 1], finished := w.finished + [b])
  }

  // ------------------------------------------------------------ every step keeps it all

  /** What only ever grows during a walk. */
  ghost predicate Extends(w: Walk, w': Walk) {
    && w.visited <= w'.visited && w.findings <= w'.findings
    && (forall b :: b in w.entryOf ==> b in w'.entryOf && w'.entryOf[b] == w.entryOf[b])
  }

  lemma SettledStays(store: Store, w: Walk, w': Walk, before: seq<BlockId>, before': seq<BlockId>, e: Entry)
    requires IsEntry(store, e) && Settled(store, w, before, e) && Extends(w, w') && before <= before'
    ensures Settled(store, w', before', e)
  {
  }

  lemma OrderedStays(store: Store, w: Walk, w': Walk)
    requires Ordered(store, w) && Extends(w, w') && w'.finished == w.finished
    ensures Ordered(store, w')
  {
    hide Settled;
    forall j, i | 0 <= j < |w'.finished| && 0 <= i < |EntriesOf(store, w'.finished[j])|
      ensures Settled(store, w', w'.finished[..j], Entry(w'.finished[j], i))
    {
      SettledStays(store, w, w', w.finished[..j], w.finished[..j], Entry(w.finished[j], i));
    }
  }

  lemma JustifiedStays(store: Store, root: BlockId, w: Walk, w': Walk, f: Finding, e: Entry)
    requires Justified(store, root, w, f, e) && Extends(w, w')
    ensures Justified(store, root, w', f, e)
  {
  }

  lemma WitnessedStays(store: Store, root: BlockId, w: Walk, w': Walk)
    requires Witnessed(store, root, w) && Extends(w, w')
    requires forall f :: f in w'.findings && IsStructural(f.kind) ==> f in w.findings
    ensures Witnessed(store, root, w')
  {
    hide Justified;
    forall f | f in w'.findings && IsStructural(f.kind) ensures exists e :: Justified(store, root, w', f, e) {
      var e :| Justified(store, root, w, f, e);
      JustifiedStays(store, root, w, w', f, e);
    }
  }

  lemma RootEntered(store: Store, root: BlockId)
    requires root in store
    ensures Inv(store, root, Enter(Fresh, root))
  {
    ReachSelf(StoreGraph(store), root);
    assert Enter(Fresh, root).ancestry == [root];
  }

  /** A block not met before is entered through an entry of the current block. */
  ghost predicate Discovers(store: Store, w: Walk, e: Entry) {
    && w.ancestry != [] && e.parent == w.ancestry[|w.ancestry| - 1] && IsEntry(store, e)
    && ChildOf(store, e) in store && ChildOf(store, e) !in w.visited
  }

  lemma EntriesAreEdges(store: Store, e: Entry)
    requires IsEntry(store, e)
    ensures ChildOf(store, e) in ChildrenIn(StoreGraph(store), e.parent)
  {
  }

  lemma ChildPlaced(store: Store, root: BlockId, w: Walk, e: Entry)
    requires Partitioned(w) && Stacked(store, root, w) && Placed(store, root, w) && Discovers(store, w, e)
    ensures Stacked(store, root, EnterThrough(store, w, ChildOf(store, e), e))
    ensures Placed(store, root, EnterThrough(store, w, ChildOf(store, e), e))
    ensures ChildOf(store, e) != root
  {
    hide Reach;
    var g, b, w' := StoreGraph(store), ChildOf(store, e), EnterThrough(store, w, ChildOf(store, e), e);
    EntriesAreEdges(store, e);
    assert e.parent in w.ancestry && w.ancestry[0] in w.ancestry;
    ReachStep(g, root, e.parent, b);
    forall i | 0 <= i < |w'.ancestry| - 1 ensures w'.ancestry[i + 1] in ChildrenIn(g, w'.ancestry[i]) {
      if i < |w.ancestry| - 1 { assert w.ancestry[i + 1] in ChildrenIn(g, w.ancestry[i]); }
    }
  }

  lemma ChildCompared(store: Store, root: BlockId, w: Walk, e: Entry)
    requires Compared(store, w) && Entered(store, root, w) && Discovers(store, w, e) && e.parent in w.visited
    requires ChildOf(store, e) != root
    ensures Compared(store, EnterThrough(store, w, ChildOf(store, e), e))
    ensures Entered(store, root, EnterThrough(store, w, ChildOf(store, e), e))
  {
    var b, w' := ChildOf(store, e), EnterThrough(store, w, ChildOf(store, e), e);
    forall kind, x, u
      ensures ReportedAs(w'.findings, kind, x, u)
         <==> ReportedAs(w.findings, kind, x, u) || NewlyCompared(store, e, kind, x, u)
    {
    }
  }

  predicate NewlyCompared(store: Store, e: Entry, kind: FindingKind, b: BlockId, parent: BlockId)
    requires IsEntry(store, e) && ChildOf(store, e) in store && e.parent in store
  {
    && b == ChildOf(store, e) && parent == e.parent
    && ((kind.ChildLevelNotLowerThanParent? && store[b].level >= store[parent].level)
        || (kind.EmbeddingSpecMismatch? && store[b].spec != store[parent].spec))
  }

  lemma ChildEntered(store: Store, root: BlockId, w: Walk, e: Entry)
    requires Inv(store, root, w) && Discovers(store, w, e)
    ensures Inv(store, root, EnterThrough(store, w, ChildOf(store, e), e))
    ensures Extends(w, EnterThrough(store, w, ChildOf(store, e), e))
  {
    hide Ordered, Witnessed, Compared, Placed, Stacked, Settled;
    var b, w' := ChildOf(store, e), EnterThrough(store, w, ChildOf(store, e), e);
    ChildPlaced(store, root, w, e);
    assert e.parent in w.ancestry;
    ChildCompared(store, root, w, e);
    OrderedStays(store, w, w');
    WitnessedStays(store, root, w, w');
  }

  /** A problem with an entry is reported. */
  lemma ReportKeeps(store: Store, root: BlockId, w: Walk, kind: FindingKind, e: Entry)
    requires Inv(store, root, w) && IsEntry(store, e) && IsStructural(kind)
    requires Justified(store, root, w, Finding(kind, ChildOf(store, e), e.parent), e)
    ensures Inv(store, root, Report(w, kind, ChildOf(store, e), e.parent))
    ensures Grows(w, Report(w, kind, ChildOf(store, e), e.parent))
  {
    hide Ordered, Partitioned, Placed, Stacked, Entered, Listed, Settled, Justified;
    var w' := Report(w, kind, ChildOf(store, e), e.parent);
    OrderedStays(store, w, w');
    forall f | f in w'.findings && IsStructural(f.kind) ensures exists e' :: Justified(store, root, w', f, e') {
      if f in w.findings {
        var e' :| Justified(store, root, w, f, e');
        JustifiedStays(store, root, w, w', f, e');
      } else {
        JustifiedStays(store, root, w, w', f, e);
      }
    }
    assert Placed(store, root, w') && Stacked(store, root, w') && Entered(store, root, w') && Listed(w') &&
      Partitioned(w') by {
      SameShape(store, root, w, w');
    }
    ComparedElsewhere(store, w, kind, ChildOf(store, e), e.parent);
  }

  lemma ComparedElsewhere(store: Store, w: Walk, kind: FindingKind, b: BlockId, parent: BlockId)
    requires Compared(store, w) && IsStructural(kind)
    ensures Compared(store, Report(w, kind, b, parent))
  {
    var w' := Report(w, kind, b, parent);
    forall k, x, u | !IsStructural(k) ensures ReportedAs(w'.findings, k, x, u) <==> ReportedAs(w.findings, k, x, u) {
    }
  }

  lemma SameShape(store: Store, root: BlockId, w: Walk, w': Walk)
    requires w' == w.(findings := w'.findings)
    ensures Placed(store, root, w) ==> Placed(store, root, w')
    ensures Stacked(store, root, w) ==> Stacked(store, root, w')
    ensures Entered(store, root, w) ==> Entered(store, root, w')
    ensures Listed(w) ==> Listed(w')
    ensures Partitioned(w) ==> Partitioned(w')
  {
    hide Reach, IsPath;
  }

  lemma CountKeeps(store: Store, root: BlockId, w: Walk)
    requires Inv(store, root, w)
    ensures Inv(store, root, w.(edgeCount := w.edgeCount + 1))
  {
    hide Reach, IsPath, Justified, Settled;
    var w' := w.(edgeCount := w.edgeCount + 1);
    OrderedStays(store, w, w');
    WitnessedStays(store, root, w, w');
  }

  lemma LeavePartitioned(w: Walk)
    requires Partitioned(w) && w.ancestry != []
    ensures Partitioned(Leave(w, w.ancestry[|w.ancestry| - 1]))
  {
    var n := |w.ancestry| - 1;
    var x, w' := w.ancestry[n], Leave(w, w.ancestry[n]);
    assert w.ancestry == w.ancestry[..n] + [x];
    assert x in w.ancestry && x !in w.ancestry[..n] && x !in w.finished;
    forall b ensures b in w'.visited <==> b in w'.ancestry || b in w'.finished {
      assert b in w.ancestry <==> b in w.ancestry[..n] || b == x;
    }
    forall b | b in w'.ancestry ensures b !in w'.finished {
      assert b in w.ancestry;
    }
    forall i, j | 0 <= i < j < |w'.finished| ensures w'.finished[i] != w'.finished[j] {
      assert w'.finished[i] == w.finished[i] && w.finished[i] in w.finished;
    }
  }

  lemma LeaveOrdered(store: Store, w: Walk, b: BlockId)
    requires Ordered(store, w) && w.ancestry != []
    requires forall i :: 0 <= i < |EntriesOf(store, b)| ==> Settled(store, w, w.finished, Entry(b, i))
    ensures Ordered(store, Leave(w, b))
  {
    hide Settled;
    var w' := Leave(w, b);
    forall j, i | 0 <= j < |w'.finished| && 0 <= i < |EntriesOf(store, w'.finished[j])|
      ensures Settled(store, w', w'.finished[..j], Entry(w'.finished[j], i))
    {
      assert w'.finished[..j] == w.finished[..j];
      if j == |w.finished| {
        assert w.finished[..j] == w.finished;
        SettledStays(store, w, w', w.finished, w.finished, Entry(b, i));
      } else {
        SettledStays(store, w, w', w.finished[..j], w.finished[..j], Entry(w.finished[j], i));
      }
    }
  }

  lemma LeaveKeeps(store: Store, root: BlockId, w: Walk)
    requires Inv(store, root, w) && w.ancestry != []
    requires var b := w.ancestry[|w.ancestry| - 1];
      forall i :: 0 <= i < |EntriesOf(store, b)| ==> Settled(store, w, w.finished, Entry(b, i))
    ensures Inv(store, root, Leave(w, w.ancestry[|w.ancestry| - 1]))
  {
    hide Partitioned, Ordered, Witnessed, Reach, Settled;
    var b := w.ancestry[|w.ancestry| - 1];
    LeavePartitioned(w);
    LeaveOrdered(store, w, b);
    WitnessedStays(store, root, w, Leave(w, b));
    LeaveStacked(store, root, w);
  }

  lemma LeaveStacked(store: Store, root: BlockId, w: Walk)
    requires Stacked(store, root, w) && w.ancestry != []
    ensures Stacked(store, root, Leave(w, w.ancestry[|w.ancestry| - 1]))
  {
    var w' := Leave(w, w.ancestry[|w.ancestry| - 1]);
    forall i | 0 <= i < |w'.ancestry| - 1 ensures w'.ancestry[i + 1] in ChildrenIn(StoreGraph(store), w'.ancestry[i]) {
      assert w.ancestry[i + 1] in ChildrenIn(StoreGraph(store), w.ancestry[i]);
    }
  }

  // -------------------------------------------------------------- counting the entries

  lemma ReportCounts(w: Walk, kind: FindingKind, child: BlockId, parent: BlockId)
    ensures Surplus(Report(w, kind, child, parent)) == Surplus(w) + if IsStructural(kind) then 1 else 0
  {
    var f := Finding(kind, child, parent);
    TallyConcat(w.findings, [f], Structural);
    assert Tally([f], Structural) == Structural(f) + Tally([f][1..], Structural);
  }

  lemma EnterCounts(store: Store, w: Walk, e: Entry)
    requires Discovers(store, w, e) && e.parent in store
    ensures Surplus(EnterThrough(store, w, ChildOf(store, e), e)) == Surplus(w) + 1
    ensures Excess(store, EnterThrough(store, w, ChildOf(store, e), e)) == Excess(store, w)
  {
    var b := ChildOf(store, e);
    var entered := Enter(w, b).(entryOf := w.entryOf[b := e]);
    ReportCounts(entered, ChildLevelNotLowerThanParent, b, e.parent);
    var levelled := if store[b].level >= store[e.parent].level
                    then Report(entered, ChildLevelNotLowerThanParent, b, e.parent) else entered;
    ReportCounts(levelled, EmbeddingSpecMismatch, b, e.parent);
  }

  lemma LeaveCounts(store: Store, w: Walk, b: BlockId)
    requires w.ancestry != []
    ensures Surplus(Leave(w, b)) == Surplus(w)
    ensures Excess(store, Leave(w, b)) == Excess(store, w) - |EntriesOf(store, b)|
  {
    TallyConcat(w.finished, [b], EntryCount(store));
    assert Tally([b], EntryCount(store)) == EntryCount(store)(b) + Tally([b][1..], EntryCount(store));
  }

  // ------------------------------------------------------------------- the traversal

  /** No block was found through this entry so far. */
  ghost predicate Unused(w: Walk, e: Entry) {
    forall b :: b in w.entryOf ==> w.entryOf[b] != e
  }

  /** Blocks found since then were found through `e` or through entries of newer blocks. */
  ghost predicate FoundThrough(w: Walk, w': Walk, e: Entry) {
    forall b :: b in w'.entryOf && b !in w.entryOf ==> w'.entryOf[b] == e || w'.entryOf[b].parent !in w.visited
  }

  /** `b` is the current block, and its entries below `i` have been handled. */
  ghost predicate At(store: Store, w: Walk, b: BlockId, i: nat) {
    && b in store && w.ancestry != [] && w.ancestry[|w.ancestry| - 1] == b && b in w.visited
    && i <= |EntriesOf(store, b)|
    && (forall k :: 0 <= k < i ==> Settled(store, w, w.finished, Entry(b, k)))
    && (forall v :: v in w.entryOf && w.entryOf[v].parent == b ==> w.entryOf[v].index < i)
  }

  /** One entry has been handled, or one block walked: everything met on the way found
      either a block or a problem. */
  ghost predicate Walked(store: Store, root: BlockId, w: Walk, w': Walk) {
    && Inv(store, root, w') && Grows(w, w')
    && Surplus(w') == Surplus(w) + 1 && Excess(store, w') == Excess(store, w)
  }

  lemma AncestorReaches(g: Graph, path: seq<BlockId>, b: BlockId)
    requires IsPath(g, path) && b in path
    ensures Reach(g, b, path[|path| - 1])
  {
    var j :| 0 <= j < |path| && path[j] == b;
    var p := path[j..];
    forall i | 0 <= i < |p| - 1 ensures p[i + 1] in ChildrenIn(g, p[i]) {
      assert path[j + i + 1] in ChildrenIn(g, path[j + i]);
    }
    assert IsPath(g, p) && p[0] == b && p[|p| - 1] == path[|path| - 1];
  }

  lemma CycleIsJustified(store: Store, root: BlockId, w: Walk, e: Entry)
    requires Inv(store, root, w) && IsEntry(store, e) && Unused(w, e) && w.ancestry != []
    requires e.parent == w.ancestry[|w.ancestry| - 1]
    requires ChildOf(store, e) in w.ancestry
    ensures Justified(store, root, w, Finding(CycleDetected, ChildOf(store, e), e.parent), e)
    ensures ChildOf(store, e) in store
  {
    hide Ordered, Witnessed, Compared, Listed, Settled, Reach, IsPath;
    AncestorReaches(StoreGraph(store), w.ancestry, ChildOf(store, e));
    assert e.parent in w.ancestry && ChildOf(store, e) in w.visited;
  }

  lemma SharedIsJustified(store: Store, root: BlockId, w: Walk, e: Entry)
    requires Inv(store, root, w) && IsEntry(store, e) && Unused(w, e) && w.ancestry != []
    requires e.parent == w.ancestry[|w.ancestry| - 1]
    requires ChildOf(store, e) in w.visited && ChildOf(store, e) !in w.ancestry
    ensures Justified(store, root, w, Finding(SharedChildReference, ChildOf(store, e), e.parent), e)
    ensures ChildOf(store, e) in w.finished && ChildOf(store, e) in store
  {
    hide Ordered, Witnessed, Compared, Listed, Settled, Reach;
    assert e.parent in w.ancestry;
  }

  lemma MissingIsJustified(store: Store, root: BlockId, w: Walk, e: Entry)
    requires Inv(store, root, w) && IsEntry(store, e) && w.ancestry != [] && e.parent == w.ancestry[|w.ancestry| - 1]
    requires ChildOf(store, e) !in store
    ensures Justified(store, root, w, Finding(MissingChildBlock, ChildOf(store, e), e.parent), e)
  {
    hide Ordered, Witnessed, Compared, Listed, Settled, Reach;
    assert e.parent in w.ancestry;
  }

  lemma ReportSettles(store: Store, root: BlockId, w: Walk, kind: FindingKind, e: Entry)
    requires Inv(store, root, w) && IsEntry(store, e) && IsStructural(kind)
    requires Justified(store, root, w, Finding(kind, ChildOf(store, e), e.parent), e)
    requires kind.MissingChildBlock? <==> ChildOf(store, e) !in store
    requires kind.SharedChildReference? ==> ChildOf(store, e) in w.finished
    ensures var w' := Report(w, kind, ChildOf(store, e), e.parent);
      Walked(store, root, w, w') && Settled(store, w', w'.finished, e) && FoundThrough(w, w', e)
  {
    hide Inv, Justified, Grows;
    ReportKeeps(store, root, w, kind, e);
    ReportCounts(w, kind, ChildOf(store, e), e.parent);
  }

  /** The first block is entered as the root, every other one through an entry. */
  ghost predicate MayEnter(store: Store, root: BlockId, w: Walk, b: BlockId, parent: Option<Entry>) {
    match parent
    case None => b == root && w == Fresh && b in store
    case Some(e) =>
      Inv(store, root, w) && Discovers(store, w, e) && ChildOf(store, e) == b && e.parent in store && Unused(w, e)
  }

  function AfterEntering(store: Store, w: Walk, b: BlockId, parent: Option<Entry>): Walk
    requires b in store && (parent.Some? ==> parent.value.parent in store)
  {
    match parent
    case None => Enter(w, b)
    case Some(e) => EnterThrough(store, w, b, e)
  }

  lemma EnteringIsSound(store: Store, root: BlockId, w: Walk, b: BlockId, parent: Option<Entry>)
    requires MayEnter(store, root, w, b, parent)
    ensures var w' := AfterEntering(store, w, b, parent);
      && Inv(store, root, w') && At(store, w', b, 0) && Surplus(w') == Surplus(w) + 1
      && Excess(store, w') == Excess(store, w)
      && w'.visited == w.visited + {b} && b !in w.visited && b !in w.entryOf
      && (parent.Some? ==> b in w'.entryOf && w'.entryOf[b] == parent.value && FoundThrough(w, w', parent.value))
  {
    match parent
    case None =>
      hide Inv;
      RootEntered(store, root);
    case Some(e) =>
      hide Inv, EnterThrough, Surplus, Excess;
      ChildEntered(store, root, w, e);
      EnterCounts(store, w, e);
      ChildShape(store, root, w, e);
  }

  lemma ChildShape(store: Store, root: BlockId, w: Walk, e: Entry)
    requires Inv(store, root, w) && Discovers(store, w, e) && e.parent in store
    ensures var b, w' := ChildOf(store, e), EnterThrough(store, w, ChildOf(store, e), e);
      && At(store, w', b, 0) && w'.visited == w.visited + {b} && b !in w.visited && b !in w.entryOf
      && w'.entryOf == w.entryOf[b := e]
  {
    hide Ordered, Witnessed, Compared, Listed, Placed, Stacked;
    assert e.parent in w.ancestry;
  }

  lemma ShapeOfEntering(store: Store, w: Walk, b: BlockId, parent: Option<Entry>)
    requires b in store && (parent.Some? ==> parent.value.parent in store)
    ensures var w' := AfterEntering(store, w, b, parent);
      && w'.ancestry == w.ancestry + [b] && w'.finished == w.finished && w.findings <= w'.findings
      && w'.entryOf == if parent.Some? then w.entryOf[b := parent.value] else w.entryOf
  {
  }

  function Counted(w: Walk): Walk { w.(edgeCount := w.edgeCount + 1) }

  lemma CountAdds(store: Store, root: BlockId, w: Walk, b: BlockId, i: nat)
    requires Inv(store, root, w) && At(store, w, b, i)
    ensures var w' := Counted(w);
      && Inv(store, root, w') && At(store, w', b, i)
      && Surplus(w') == Surplus(w) - 1 && Excess(store, w') == Excess(store, w) + 1
  {
    hide Inv, Settled;
    CountKeeps(store, root, w);
    forall k | 0 <= k < i ensures Settled(store, w.(edgeCount := w.edgeCount + 1), w.finished, Entry(b, k)) {
      SettledStays(store, w, w.(edgeCount := w.edgeCount + 1), w.finished, w.finished, Entry(b, k));
    }
  }

  /** After an entry has been handled the walk is at the next one. */
  lemma EntryHandled(store: Store, w: Walk, w': Walk, b: BlockId, i: nat)
    requires At(store, w, b, i) && i < |EntriesOf(store, b)| && Grows(w, w') && FoundThrough(w, w', Entry(b, i))
    requires Settled(store, w', w'.finished, Entry(b, i))
    ensures At(store, w', b, i + 1)
  {
    hide Settled;
    forall k | 0 <= k < i + 1 ensures Settled(store, w', w'.finished, Entry(b, k)) {
      if k < i { SettledStays(store, w, w', w.finished, w'.finished, Entry(b, k)); }
    }
  }

  /** When all entries have been handled the block is finished. */
  lemma LeavingIsSound(store: Store, root: BlockId, w: Walk, entered: Walk, walked: Walk, b: BlockId,
                       parent: Option<Entry>)
    requires b in store && (parent.Some? ==> parent.value.parent in store)
    requires entered == AfterEntering(store, w, b, parent)
    requires b !in w.entryOf && w.visited <= entered.visited && Grows(entered, walked)
    requires Inv(store, root, walked) && At(store, walked, b, |EntriesOf(store, b)|)
    requires Surplus(walked) == Surplus(w) + 1 && Excess(store, walked) == Excess(store, w) + |EntriesOf(store, b)|
    requires parent.Some? ==> FoundThrough(w, walked, parent.value)
    ensures walked.ancestry != [] && Walked(store, root, w, Leave(walked, b)) && b in Leave(walked, b).finished
    ensures parent.Some? ==>
      FoundThrough(w, Leave(walked, b), parent.value) && b in walked.entryOf && walked.entryOf[b] == parent.value
  {
    hide Inv, Settled, Surplus, Excess, AfterEntering;
    assert At(store, walked, b, |EntriesOf(store, b)|);
    ShapeOfEntering(store, w, b, parent);
    LeaveKeeps(store, root, walked);
    LeaveCounts(store, walked, b);
  }

  lemma GrowsNot(w: Walk)
    ensures Grows(w, w)
  {
  }

  lemma EntryDone(store: Store, root: BlockId, w: Walk, entered: Walk, before: Walk, w': Walk, b: BlockId, i: nat,
                  parent: Option<Entry>)
    requires Inv(store, root, before) && At(store, before, b, i) && i < |EntriesOf(store, b)|
    requires b !in w.visited && w.visited <= before.visited
    requires Walked(store, root, Counted(before), w') && Settled(store, w', w'.finished, Entry(b, i))
    requires FoundThrough(Counted(before), w', Entry(b, i)) && Grows(entered, before)
    requires parent.Some? ==> FoundThrough(w, before, parent.value)
    ensures Inv(store, root, w') && At(store, w', b, i + 1) && Grows(entered, w') && before.visited <= w'.visited
    ensures Surplus(w') == Surplus(before) && Excess(store, w') == Excess(store, before) + 1
    ensures parent.Some? ==> FoundThrough(w, w', parent.value)
  {
    hide At, Settled, Inv, Surplus, Excess;
    CountAdds(store, root, before, b, i);
    EntryHandled(store, Counted(before), w', b, i);
  }

  // ------------------------------------------------------------- what a walk finds out

  /** A walk over everything below the root. */
  ghost predicate Complete(store: Store, root: BlockId, w: Walk) {
    Inv(store, root, w) && w.ancestry == [] && root in w.visited && Surplus(w) == 1 && Excess(store, w) == 0
  }

  ghost predicate Reports(w: Walk, kind: FindingKind) {
    exists f :: f in w.findings && f.kind == kind
  }

  /** Every block reachable through stored blocks is visited, once, and no other. */
  lemma VisitsTheReachable(store: Store, root: BlockId, w: Walk, b: BlockId)
    requires Complete(store, root, w)
    ensures b in w.visited <==> Reachable(store, root, b)
    ensures b in w.blocks <==> Reachable(store, root, b)
    ensures forall i, j :: 0 <= i < j < |w.blocks| ==> w.blocks[i] != w.blocks[j]
  {
    hide Witnessed, Compared, Stacked, Ordered, Entered, Reachable, Partitioned;
    if Reachable(store, root, b) { ReachableIsVisited(store, root, w, b); }
  }

  lemma ReachIsMet(store: Store, root: BlockId, w: Walk, b: BlockId)
    requires Complete(store, root, w) && Reach(StoreGraph(store), root, b)
    ensures b in w.visited || exists u :: u in w.visited && b in EntriesOf(store, u)
  {
    hide Inv, Reach;
    var g := StoreGraph(store);
    var met := w.visited + set u, v | u in w.visited && v in EntriesOf(store, u) :: v;
    forall u, v | u in met && v in ChildrenIn(g, u) ensures v in met {
      if u !in w.visited { StoredEntryIsVisited(store, root, w, u); }
      assert u in w.visited && v in EntriesOf(store, u);
    }
    ClosedHoldsReach(g, met, root, b);
  }

  lemma ReachableIsVisited(store: Store, root: BlockId, w: Walk, b: BlockId)
    requires Complete(store, root, w) && Reachable(store, root, b)
    ensures b in w.visited
  {
    hide Inv, Reach;
    ReachIsMet(store, root, w, b);
    if b !in w.visited { StoredEntryIsVisited(store, root, w, b); }
  }

  lemma StoredEntryIsVisited(store: Store, root: BlockId, w: Walk, v: BlockId)
    requires Complete(store, root, w) && v in store
    requires exists u :: u in w.visited && v in EntriesOf(store, u)
    ensures v in w.visited
  {
    hide Compared, Stacked, Placed, Reach, Listed;
    var u :| u in w.visited && v in EntriesOf(store, u);
    var j :| 0 <= j < |w.finished| && w.finished[j] == u;
    var i :| 0 <= i < |EntriesOf(store, u)| && EntriesOf(store, u)[i] == v;
    assert Settled(store, w, w.finished[..j], Entry(w.finished[j], i));
    if v !in w.finished[..j] {
      assert ReportedAs(w.findings, CycleDetected, v, u);
      var e :| Justified(store, root, w, Finding(CycleDetected, v, u), e);
    }
  }

  /** Without a reported cycle every step along an entry goes to a block finished earlier. */
  lemma {:induction false} PathDescends(store: Store, root: BlockId, w: Walk, p: seq<BlockId>, j: nat, k: nat)
    returns (m: nat)
    requires Complete(store, root, w) && !Reports(w, CycleDetected)
    requires IsPath(StoreGraph(store), p) && j < |w.finished| && w.finished[j] == p[0] && k < |p| && p[|p| - 1] in store
    ensures m + k <= j && w.finished[m] == p[k]
  {
    if k == 0 {
      m := j;
    } else {
      var before := PathDescends(store, root, w, p, j, k - 1);
      var g, u, v := StoreGraph(store), p[k - 1], p[k];
      assert p[k - 1 + 1] in ChildrenIn(g, p[k - 1]);
      var i :| 0 <= i < |EntriesOf(store, u)| && EntriesOf(store, u)[i] == v;
      if k < |p| - 1 { assert p[k + 1] in ChildrenIn(g, p[k]); }
      assert Settled(store, w, w.finished[..before], Entry(u, i));
      assert v in w.finished[..before];
      m :| 0 <= m < before && w.finished[..before][m] == v;
    }
  }

  /** A path back to its start, extended by the closing edge. */
  lemma PathCloses(g: Graph, b: BlockId, parent: BlockId) returns (cycle: seq<BlockId>)
    requires Reach(g, b, parent) && b in ChildrenIn(g, parent)
    ensures IsPath(g, cycle) && |cycle| >= 2 && cycle[0] == b && cycle[|cycle| - 1] == b
  {
    var p :| IsPath(g, p) && p[0] == b && p[|p| - 1] == parent;
    cycle := p + [b];
    forall i | 0 <= i < |cycle| - 1 ensures cycle[i + 1] in ChildrenIn(g, cycle[i]) {
      if i < |p| - 1 { assert p[i + 1] in ChildrenIn(g, p[i]); }
    }
  }

  lemma ReportedCycleExists(store: Store, root: BlockId, w: Walk)
    requires Witnessed(store, root, w) && Placed(store, root, w) && Reports(w, CycleDetected)
    ensures HasCycle(store, root)
  {
    hide Reach, IsPath;
    var g := StoreGraph(store);
    var f :| f in w.findings && f.kind == CycleDetected;
    var e :| Justified(store, root, w, f, e);
    EntriesAreEdges(store, e);
    var cycle := PathCloses(g, f.block, f.parent);
    ReachStep(g, root, f.parent, f.block);
  }

  lemma UnreportedMeansAcyclic(store: Store, root: BlockId, w: Walk)
    requires Complete(store, root, w) && !Reports(w, CycleDetected)
    ensures !HasCycle(store, root)
  {
    hide Ordered, Compared, Listed, Stacked, Placed, Entered, Witnessed, Reach;
    if HasCycle(store, root) {
      var g := StoreGraph(store);
      var p :| IsPath(g, p) && |p| >= 2 && p[0] == p[|p| - 1] && Reach(g, root, p[0]);
      assert p[0 + 1] in ChildrenIn(g, p[0]);
      VisitsTheReachable(store, root, w, p[0]);
      var j :| 0 <= j < |w.finished| && w.finished[j] == p[0];
      var m := PathDescends(store, root, w, p, j, |p| - 1);
      assert false;
    }
  }

  /** The walk reports a cycle if and only if there is one. */
  lemma ReportsCyclesExactly(store: Store, root: BlockId, w: Walk)
    requires Complete(store, root, w)
    ensures Reports(w, CycleDetected) <==> HasCycle(store, root)
  {
    hide HasCycle, Reports;
    if Reports(w, CycleDetected) {
      ReportedCycleExists(store, root, w);
    } else {
      UnreportedMeansAcyclic(store, root, w);
    }
  }

  lemma EntrySettled(store: Store, root: BlockId, w: Walk, e: Entry)
    requires Complete(store, root, w) && ReachableEntry(store, root, e)
    ensures e.parent in w.visited
    ensures ChildOf(store, e) !in store ==> ReportedAs(w.findings, MissingChildBlock, ChildOf(store, e), e.parent)
    ensures ChildOf(store, e) in store && !(ChildOf(store, e) in w.entryOf && w.entryOf[ChildOf(store, e)] == e)
      ==> ReportedAs(w.findings, CycleDetected, ChildOf(store, e), e.parent)
          || ReportedAs(w.findings, SharedChildReference, ChildOf(store, e), e.parent)
  {
    hide Witnessed, Compared, Stacked, Placed, Reach, Listed;
    VisitsTheReachable(store, root, w, e.parent);
    var j :| 0 <= j < |w.finished| && w.finished[j] == e.parent;
    assert Settled(store, w, w.finished[..j], Entry(w.finished[j], e.index));
  }

  /** Missing children are reported exactly. */
  lemma ReportsMissingExactly(store: Store, root: BlockId, w: Walk, child: BlockId, parent: BlockId)
    requires Complete(store, root, w)
    ensures ReportedAs(w.findings, MissingChildBlock, child, parent)
       <==> Reachable(store, root, parent) && child in EntriesOf(store, parent) && child !in store
  {
    hide Ordered, Compared, Stacked, Listed, Reach;
    if ReportedAs(w.findings, MissingChildBlock, child, parent) {
      var e :| Justified(store, root, w, Finding(MissingChildBlock, child, parent), e);
      assert ChildOf(store, e) in EntriesOf(store, parent);
    }
    if Reachable(store, root, parent) && child in EntriesOf(store, parent) && child !in store {
      var i :| 0 <= i < |EntriesOf(store, parent)| && EntriesOf(store, parent)[i] == child;
      EntrySettled(store, root, w, Entry(parent, i));
    }
  }

  ghost predicate NothingStructural(w: Walk) {
    forall f :: f in w.findings ==> !IsStructural(f.kind)
  }

  /** The blocks below the root form a tree if and only if no child is reported missing,
      shared, or closing a cycle; then there is no cycle either. */
  lemma TreeIffNothingStructural(store: Store, root: BlockId, w: Walk)
    requires Complete(store, root, w)
    ensures NothingStructural(w) <==> IsTree(store, root)
    ensures NothingStructural(w) ==> !HasCycle(store, root)
  {
    hide Ordered, Compared, Stacked, Listed, Reach, Reachable, HasCycle;
    ReportsCyclesExactly(store, root, w);
    if NothingStructural(w) {
      forall e | ReachableEntry(store, root, e)
        ensures ChildOf(store, e) in store && ChildOf(store, e) != root && ChildOf(store, e) in w.entryOf
        ensures w.entryOf[ChildOf(store, e)] == e
      {
        EntrySettled(store, root, w, e);
      }
    } else {
      var f :| f in w.findings && IsStructural(f.kind);
      var e :| Justified(store, root, w, f, e);
      assert ReachableEntry(store, root, e);
      if f.block in store && f.block != root {
        var finder := w.entryOf[f.block];
        assert ReachableEntry(store, root, finder) && ChildOf(store, finder) == ChildOf(store, e) && finder != e;
      }
    }
  }

  ghost predicate NamesChild(store: Store, root: BlockId, parent: BlockId, b: BlockId) {
    Reachable(store, root, parent) && b in EntriesOf(store, parent) && b in store
  }

  lemma FoundByItsParent(store: Store, root: BlockId, w: Walk, b: BlockId, parent: BlockId)
    requires Complete(store, root, w) && NothingStructural(w)
    ensures NamesChild(store, root, parent, b) <==> b in w.entryOf && w.entryOf[b].parent == parent && b in store
    ensures NamesChild(store, root, parent, b) ==> parent in store
  {
    hide Ordered, Stacked, Listed, Reach, Witnessed, Compared, Partitioned;
    if NamesChild(store, root, parent, b) {
      var i :| 0 <= i < |EntriesOf(store, parent)| && EntriesOf(store, parent)[i] == b;
      EntrySettled(store, root, w, Entry(parent, i));
    }
    if b in w.entryOf && w.entryOf[b].parent == parent && b in store {
      assert ChildOf(store, w.entryOf[b]) == b;
    }
  }

  /** On a tree the level and embedding comparisons are made along every entry. */
  lemma ComparesEveryTreeEntry(store: Store, root: BlockId, w: Walk, b: BlockId, parent: BlockId)
    requires Complete(store, root, w) && IsTree(store, root)
    ensures ReportedAs(w.findings, ChildLevelNotLowerThanParent, b, parent)
       <==> NamesChild(store, root, parent, b) && parent in store && store[b].level >= store[parent].level
    ensures ReportedAs(w.findings, EmbeddingSpecMismatch, b, parent)
       <==> NamesChild(store, root, parent, b) && parent in store && store[b].spec != store[parent].spec
  {
    TreeIffNothingStructural(store, root, w);
    FoundByItsParent(store, root, w, b, parent);
    hide Ordered, Stacked, Listed, IsTree, Witnessed, HasCycle, NamesChild, Partitioned, Placed, Entered;
  }

  /** The edge count is the number of entries of all reachable blocks, and every entry either
      found one of the other blocks or was reported. */
  lemma CountsEveryEntryOnce(store: Store, root: BlockId, w: Walk)
    requires Complete(store, root, w)
    ensures w.edgeCount == (|w.blocks| - 1) + Tally(w.findings, Structural)
    ensures w.edgeCount == Tally(w.blocks, EntryCount(store))
  {
    hide Ordered, Compared, Stacked, Witnessed, Entered, Placed;
    SameMembersSameTally(w.finished, w.blocks, EntryCount(store));
    SetSize(w.blocks, w.visited);
  }

  lemma {:induction false} SetSize(xs: seq<BlockId>, s: set<BlockId>)
    requires forall b :: b in s <==> b in xs
    requires forall i, j :: 0 <= i < j < |xs| ==> xs[i] != xs[j]
    ensures |s| == |xs|
  {
    if xs == [] {
      assert s == {};
    } else {
      var x := xs[0];
      assert xs == [x] + xs[1..];
      SetSize(xs[1..], s - {x});
    }
  }

  /** Two sequences without repetitions that hold the same blocks have the same sums. */
  lemma {:induction false} SameMembersSameTally(xs: seq<BlockId>, ys: seq<BlockId>, f: BlockId -> nat)
    requires forall b :: b in xs <==> b in ys
    requires forall i, j :: 0 <= i < j < |xs| ==> xs[i] != xs[j]
    requires forall i, j :: 0 <= i < j < |ys| ==> ys[i] != ys[j]
    ensures Tally(xs, f) == Tally(ys, f)
  {
    if xs == [] {
      if ys != [] { FirstIsMember(ys); }
    } else {
      var x := xs[0];
      assert x in ys;
      var k :| 0 <= k < |ys| && ys[k] == x;
      var rest := ys[..k] + ys[k + 1..];
      TallyWithout(ys, k, f);
      forall b ensures b in xs[1..] <==> b in rest {
        assert b in xs <==> b == x || b in xs[1..];
      }
      SameMembersSameTally(xs[1..], rest, f);
    }
  }

  lemma FirstIsMember(ys: seq<BlockId>)
    requires ys != []
    ensures exists b :: b in ys
  {
    assert ys[0] in ys;
  }

  lemma WholeWalk(store: Store, root: BlockId, w: Walk)
    requires Walked(store, root, Fresh, w) && root in w.finished
    ensures Complete(store, root, w)
  {
    hide Ordered, Compared, Stacked, Witnessed, Entered, Placed;
  }

  // ----------------------------------------------------------- when a walk succeeds

  /** Every id met so far was looked up, and every block accepted. */
  ghost predicate AllFine(store: Store, h: Hazards, w: Walk) {
    && (forall b :: b in w.visited ==> Fine(store, h, b))
    && (forall f :: f in w.findings && f.kind.MissingChildBlock? ==> Fine(store, h, f.block))
  }

  /** Something that can be reached cannot be looked up or is refused. */
  ghost predicate Troubled(store: Store, root: BlockId, h: Hazards) {
    exists b :: Reach(StoreGraph(store), root, b) && !Fine(store, h, b)
  }

  lemma EnteringIsFine(store: Store, h: Hazards, w: Walk, b: BlockId, parent: Option<Entry>)
    requires AllFine(store, h, w) && Fine(store, h, b)
    requires b in store && (parent.Some? ==> parent.value.parent in store)
    ensures AllFine(store, h, AfterEntering(store, w, b, parent))
  {
  }

  lemma VisitedCanBeReached(store: Store, root: BlockId, w: Walk, b: BlockId)
    requires Inv(store, root, w) && b in w.visited
    ensures Reach(StoreGraph(store), root, b)
    ensures forall c :: c in EntriesOf(store, b) ==> Reach(StoreGraph(store), root, c)
  {
    hide Reach, Ordered, Witnessed, Compared, Stacked, Entered;
    forall c | c in EntriesOf(store, b) ensures Reach(StoreGraph(store), root, c) {
      ReachStep(StoreGraph(store), root, b, c);
    }
  }

  /** A complete walk has met everything that can be reached. */
  lemma CompleteMeetsAll(store: Store, root: BlockId, h: Hazards, w: Walk)
    requires Complete(store, root, w) && AllFine(store, h, w)
    ensures !Troubled(store, root, h)
  {
    hide Inv, Reach, Surplus, Excess;
    forall b | Reach(StoreGraph(store), root, b) ensures Fine(store, h, b) {
      ReachIsMet(store, root, w, b);
      if b !in w.visited {
        var u :| u in w.visited && b in EntriesOf(store, u);
        VisitsTheReachable(store, root, w, b);
        VisitsTheReachable(store, root, w, u);
        ReportsMissingExactly(store, root, w, b, u);
      }
    }
  }

  class TreeTraversal {
    const store: Store
    const root: BlockId
    const hazards: Hazards
    var loads: nat
    var visited: set<BlockId>
    var ancestry: seq<BlockId>
    var findings: seq<Finding>
    var edgeCount: nat
    var blocks: seq<BlockId>
    ghost var finished: seq<BlockId>
    ghost var entryOf: map<BlockId, Entry>

    ghost function Now(): Walk
      reads this
    {
      Walk(visited, ancestry, findings, edgeCount, blocks, finished, entryOf)
    }

    constructor (store: Store, root: BlockId, hazards: Hazards)
      ensures this.store == store && this.root == root && this.hazards == hazards && loads == 0 && Now() == Fresh
    {
      this.store, this.root, this.hazards, loads := store, root, hazards, 0;
      visited, ancestry, findings, edgeCount, blocks, finished, entryOf := {}, [], [], 0, [], [], map[];
    }

    ghost predicate Calm(since: nat)
      reads this
    {
      Uninterrupted(hazards.interrupted, since, loads)
    }

    method CheckForInterrupt() returns (ok: bool)
      modifies this`loads
      ensures loads == old(loads) + 1 && ok == !hazards.interrupted(old(loads))
    {
      ok := !hazards.interrupted(loads);
      loads := loads + 1;
    }

    /** Walks everything below the root. The walk succeeds if and only if the root is stored,
        no interrupt is noticed, and all that can be reached can be looked up and accepted. */
    method Assess() returns (ok: bool)
      requires Now() == Fresh
      modifies this
      ensures ok <==> root in store && Calm(old(loads)) && !Troubled(store, root, hazards)
      ensures ok ==> Complete(store, root, Now())
    {
      hide Inv, Reach;
      ok := CheckForInterrupt();
      if !ok { return; }
      ReachSelf(StoreGraph(store), root);
      if root in hazards.unread || root !in store { return false; }
      ok := TraverseBlock(root, None);
      if ok {
        WholeWalk(store, root, Now());
        CompleteMeetsAll(store, root, hazards, Now());
      }
    }

    method PushFinding(kind: FindingKind, child: BlockId, parent: BlockId)
      modifies this`findings
      ensures Now() == Report(old(Now()), kind, child, parent)
    {
      findings := findings + [Finding(kind, child, parent)];
    }

    /** The block is visited and compared with its parent. */
    method EnterBlock(b: BlockId, parent: Option<Entry>)
      requires b in store && (parent.Some? ==> parent.value.parent in store)
      modifies this
      ensures Now() == AfterEntering(store, old(Now()), b, parent) && loads == old(loads)
    {
      visited := visited + {b};
      ancestry := ancestry + [b];
      if parent.Some? {
        var u := parent.value.parent;
        if store[b].level >= store[u].level { PushFinding(ChildLevelNotLowerThanParent, b, u); }
        if store[b].spec != store[u].spec { PushFinding(EmbeddingSpecMismatch, b, u); }
        entryOf := entryOf[b := parent.value];
      }
      blocks := blocks + [b];
    }

    /** Walks one block. The walk fails only when an interrupt is noticed or when something
        that can be reached cannot be looked up or is refused. */
    method TraverseBlock(b: BlockId, parent: Option<Entry>) returns (ok: bool)
      requires b in store && b !in hazards.unread && MayEnter(store, root, Now(), b, parent)
      requires AllFine(store, hazards, Now())
      modifies this
      ensures ok ==> Walked(store, root, old(Now()), Now()) && b in finished
      ensures ok && parent.Some? ==>
        b in entryOf && entryOf[b] == parent.value && FoundThrough(old(Now()), Now(), parent.value)
      ensures old(loads) <= loads && (ok ==> Calm(old(loads)) && AllFine(store, hazards, Now()))
      ensures !ok ==> !Calm(old(loads)) || Troubled(store, root, hazards)
      decreases store.Keys - visited, 0
    {
      hide Inv, Grows, Surplus, Excess, Settled, AfterEntering, FoundThrough, At, Walked, AllFine, Reach;
      ok := CheckForInterrupt();
      if !ok { return; }
      EnteringIsSound(store, root, Now(), b, parent);
      ShapeOfEntering(store, Now(), b, parent);
      if b in visited { return true; }
      if b !in hazards.refused { EnteringIsFine(store, hazards, Now(), b, parent); }
      EnterBlock(b, parent);
      ghost var entered := Now();
      if b in hazards.refused {
        VisitedCanBeReached(store, root, entered, b);
        return false;
      }
      ok := HandleEntries(b, parent, old(Now()));
      if ok {
        ghost var walked := Now();
        LeavingIsSound(store, root, old(Now()), entered, walked, b, parent);
        ancestry := ancestry[..|ancestry| - 1];
        finished := finished + [b];
        SameMeetings(store, hazards, walked, Now());
      }
    }

    method HandleEntries(b: BlockId, ghost parent: Option<Entry>, ghost w: Walk) returns (ok: bool)
      requires b in store && (parent.Some? ==> parent.value.parent in store) && b !in w.visited && w.visited <= visited
      requires Inv(store, root, Now()) && At(store, Now(), b, 0) && AllFine(store, hazards, Now())
      requires (parent.Some? ==> FoundThrough(w, Now(), parent.value))
      modifies this
      ensures ok ==> Inv(store, root, Now()) && At(store, Now(), b, |EntriesOf(store, b)|) && Grows(old(Now()), Now())
      ensures ok ==> Surplus(Now()) == Surplus(old(Now()))
      ensures ok ==> Excess(store, Now()) == Excess(store, old(Now())) + |EntriesOf(store, b)|
      ensures ok && parent.Some? ==> FoundThrough(w, Now(), parent.value)
      ensures old(loads) <= loads && (ok ==> Calm(old(loads)) && AllFine(store, hazards, Now()))
      ensures !ok ==> !Calm(old(loads)) || Troubled(store, root, hazards)
      decreases store.Keys - visited, 2
    {
      hide Inv, Surplus, Excess, Settled, FoundThrough, At, Walked, Grows, AllFine, Reach, Troubled;
      var entries := store[b].entries;
      GrowsNot(Now());
      for i := 0 to |entries|
        invariant Inv(store, root, Now()) && At(store, Now(), b, i) && Grows(old(Now()), Now())
        invariant Surplus(Now()) == Surplus(old(Now())) && Excess(store, Now()) == Excess(store, old(Now())) + i
        invariant parent.Some? ==> FoundThrough(w, Now(), parent.value)
        invariant old(visited) <= visited && w.visited <= visited
        invariant old(loads) <= loads && Calm(old(loads)) && AllFine(store, hazards, Now())
      {
        ok := CheckForInterrupt();
        if !ok { return; }
        ghost var before := Now();
        CountAdds(store, root, before, b, i);
        edgeCount := edgeCount + 1;
        assert Now() == Counted(before);
        SameMeetings(store, hazards, before, Now());
        ok := HandleChildEntry(Entry(b, i));
        if !ok { return; }
        EntryDone(store, root, w, old(Now()), before, Now(), b, i, parent);
      }
      return true;
    }

    /** Classifies one entry: it closes a cycle, leads to a block met before, leads nowhere,
        or finds a new block, which is then walked. */
    method HandleChildEntry(e: Entry) returns (ok: bool)
      requires Inv(store, root, Now()) && IsEntry(store, e) && At(store, Now(), e.parent, e.index)
      requires AllFine(store, hazards, Now())
      modifies this
      ensures ok ==> Walked(store, root, old(Now()), Now()) && Settled(store, Now(), finished, e)
      ensures ok ==> FoundThrough(old(Now()), Now(), e)
      ensures old(loads) <= loads && (ok ==> Calm(old(loads)) && AllFine(store, hazards, Now()))
      ensures !ok ==> !Calm(old(loads)) || Troubled(store, root, hazards)
      decreases store.Keys - visited, 1
    {
      hide Inv, Grows, Surplus, Excess, Settled, Justified, FoundThrough, Walked, AllFine, Reach;
      ok := CheckForInterrupt();
      if !ok { return; }
      var child := store[e.parent].entries[e.index];
      if child in ancestry {
        CycleIsJustified(store, root, Now(), e);
        ReportSettles(store, root, Now(), CycleDetected, e);
        ReportIsFine(store, hazards, Now(), CycleDetected, child, e.parent);
        PushFinding(CycleDetected, child, e.parent);
        return true;
      }
      if child in visited {
        SharedIsJustified(store, root, Now(), e);
        ReportSettles(store, root, Now(), SharedChildReference, e);
        ReportIsFine(store, hazards, Now(), SharedChildReference, child, e.parent);
        PushFinding(SharedChildReference, child, e.parent);
        return true;
      }
      if child in hazards.unread {
        VisitedCanBeReached(store, root, Now(), e.parent);
        assert child in EntriesOf(store, e.parent) && !Fine(store, hazards, child);
        return false;
      }
      if child !in store {
        MissingIsJustified(store, root, Now(), e);
        ReportSettles(store, root, Now(), MissingChildBlock, e);
        ReportIsFine(store, hazards, Now(), MissingChildBlock, child, e.parent);
        PushFinding(MissingChildBlock, child, e.parent);
        return true;
      }
      ok := TraverseBlock(child, Some(e));
      if ok { FoundIsSettled(store, Now(), e); }
    }
  }

  lemma SameMeetings(store: Store, h: Hazards, w: Walk, w': Walk)
    requires AllFine(store, h, w) && w'.visited == w.visited && w'.findings == w.findings
    ensures AllFine(store, h, w')
  {
  }

  lemma ReportIsFine(store: Store, h: Hazards, w: Walk, kind: FindingKind, child: BlockId, parent: BlockId)
    requires AllFine(store, h, w) && (kind.MissingChildBlock? ==> Fine(store, h, child))
    ensures AllFine(store, h, Report(w, kind, child, parent))
  {
  }

  lemma FoundIsSettled(store: Store, w: Walk, e: Entry)
    requires IsEntry(store, e) && ChildOf(store, e) in store && ChildOf(store, e) in w.finished
    requires ChildOf(store, e) in w.entryOf && w.entryOf[ChildOf(store, e)] == e
    ensures Settled(store, w, w.finished, e)
  {
  }
}
