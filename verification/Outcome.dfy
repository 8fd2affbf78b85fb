/** What an uninterrupted copy amounts to, stated without reference to how it ran. */
module Outcome {
  import opened Options
  import opened BlockGraph
  import opened FailureTracker
  import opened Ledger
  import opened Destination
  import opened Frontier
  import WriteQueue

  /** The figures a copy reports; which counts are given depends on the mode. */
  datatype Report = Report(
    copied: Option<nat>,
    skipped: Option<nat>,
    attempted: Option<nat>,
    failedBlockCount: nat,
    failures: multiset<CopyFailure>)

  function SubjectsOf(failures: multiset<CopyFailure>): set<Subject> {
    set f | f in failures :: f.subject
  }

  function ReportOf(env: Env, l: Ledger, failures: multiset<CopyFailure>): Report {
    if env.limits.mode == WriteQueue.ReadBeforeWrite
    then Report(Some(l.metrics.copied), Some(l.metrics.skipped), None,
                |SubjectsOf(failures)|, failures)
    else Report(None, None, Some(l.metrics.attempted), |SubjectsOf(failures)|, failures)
  }

  // ----------------------------------------------------------- any store at all

  ghost predicate NothingLost(l: Ledger) {
    forall b :: b in l.fate ==> !l.fate[b].Abandoned? && !l.fate[b].Discarded?
  }

  /** One failure per requested root and recorded failure at a block the root reaches,
      and nothing else. */
  ghost predicate AttributedExactly(env: Env, l: Ledger) {
    && l.log.store == multiset{}
    && forall f: CopyFailure :: f.subject.Block? ==>
        ExpectedCount(l.log, f) ==
          if Genuine(env, f.root, f.subject.id) then l.log.recorded[(f.subject.id, f.template)] else 0
  }

  /** Every visited block has exactly one outcome, and the counters add up. */
  ghost predicate Conserved(env: Env, l: Ledger) {
    && l.metrics.readCount == |l.visited|
    && (env.limits.mode == WriteQueue.ReadBeforeWrite ==>
        |l.visited| == l.metrics.copied + l.metrics.skipped + |Class(l.fate, ReadFailedKind)|
                     + |Class(l.fate, CheckFailedKind)| + |Class(l.fate, WriteFailedKind)|)
    && (env.limits.mode == WriteQueue.BlindWrite ==>
         l.metrics.attempted + |Class(l.fate, ReadFailedKind)| == |l.visited|)
  }

  ghost predicate Complete(env: Env, l: Ledger) {
    && l.visited == ReachableSet(env.source, env.roots)
    && l.fate.Keys == l.visited
    && NothingLost(l)
    && AttributedExactly(env, l)
    && Conserved(env, l)
  }

  lemma FatesCoverVisited(l: Ledger)
    requires Partitioned(l, NoParts)
    ensures l.fate.Keys == l.visited
  {
    forall b ensures b in l.fate.Keys <==> b in l.visited {
      assert multiset(l.visited)[b] == multiset(l.fate.Keys)[b];
    }
  }

  /** The classes of a fate map partition its domain. */
  lemma {:induction false} ClassesPartition(fate: map<BlockId, Fate>)
    ensures |fate| == |Class(fate, ReadFailedKind)| + |Class(fate, CheckFailedKind)| + |Class(fate, SkippedKind)|
      + |Class(fate, CopiedKind)| + |Class(fate, WrittenKind)| + |Class(fate, WriteFailedKind)|
      + |Class(fate, AbandonedKind)| + |Class(fate, DiscardedKind)|
    decreases |fate|
  {
    if fate == map[] {
      forall k ensures Class(fate, k) == {} { }
    } else {
      var b :| b in fate;
      var rest := fate - {b};
      assert fate == rest[b := fate[b]];
      assert |fate| == |rest| + 1;
      ClassesPartition(rest);
      ClassesGrow(rest, b, fate[b]);
    }
  }

  lemma EmptyClass(fate: map<BlockId, Fate>, k: Kind)
    requires forall b :: b in fate ==> KindOf(fate[b]) != k
    ensures |Class(fate, k)| == 0
  {
    assert Class(fate, k) == {};
  }

  lemma ConservedAtEnd(env: Env, l: Ledger)
    requires Books(env, l, NoParts) && NothingLost(l)
    ensures Conserved(env, l) && l.fate.Keys == l.visited
  {
    hide Explained, ChildrenKnown;
    FatesCoverVisited(l);
    ClassesPartition(l.fate);
    assert |l.fate| == |l.fate.Keys|;
    EmptyClass(l.fate, AbandonedKind);
    EmptyClass(l.fate, DiscardedKind);
    if env.limits.mode == WriteQueue.ReadBeforeWrite {
      EmptyClass(l.fate, WrittenKind);
    } else {
      EmptyClass(l.fate, SkippedKind);
      EmptyClass(l.fate, CopiedKind);
      EmptyClass(l.fate, CheckFailedKind);
    }
  }

  /** A run that ended with nothing pending, lost or reported against the store is complete. */
  lemma EndIsComplete(env: Env, l: Ledger)
    requires Books(env, l, NoParts) && OnTrack(env, l, NoFront) && Covers(env, l, NoFront)
    requires NothingLost(l) && l.log.store == multiset{}
    ensures Complete(env, l)
  {
    hide OnTrack, Covers, Partitioned, Explained, Metered, AttemptsCounted, FatesFit;
    ConservedAtEnd(env, l);
    NothingPending(env, l);
    forall f: CopyFailure | f.subject.Block?
      ensures ExpectedCount(l.log, f) ==
        if Genuine(env, f.root, f.subject.id) then l.log.recorded[(f.subject.id, f.template)] else 0
    {
      AttributionIsReachability(env, l, f.root, f.subject.id);
    }
  }

  /** In every run, stopped or not, the count of failed blocks in the report is the number
      of distinct failed ids that the progress counter has seen. */
  lemma FailedCountMatchesProgress(env: Env, l: Ledger, p: Parts, f: Front, failures: multiset<CopyFailure>,
                                   counted: set<Subject>)
    requires Books(env, l, p) && OnTrack(env, l, f) && Explains(l.log, failures)
    requires forall g :: g in l.log.store ==> g.subject == DestinationStore
    requires forall s :: s in counted <==> FailedSubject(l.log, s)
    ensures |SubjectsOf(failures)| == |counted|
  {
    hide Partitioned, Metered, AttemptsCounted, ChildrenKnown, Explains, Attributed, Reach, FailedSubject;
    forall b, t | (b, t) in l.log.recorded ensures exists root :: Attributed(l.log, root, b) {
      RecordedIsVisited(env, l, p, b, t);
      assert IsNoted(l.log, b);
      var root :| (root, b) in l.log.noted;
      NotedIsAttributed(l.log, root, b);
    }
    forall s ensures s in counted <==> s in SubjectsOf(failures) {
      SubjectReported(l.log, failures, s);
    }
    assert SubjectsOf(failures) == counted;
  }

  lemma NotedIsAttributed(log: FailureLog, root: BlockId, b: BlockId)
    requires (root, b) in log.noted
    ensures Attributed(log, root, b)
  {
    ReachSelf(log.children, b);
  }

  lemma RecordedIsVisited(env: Env, l: Ledger, p: Parts, b: BlockId, t: Template)
    requires Books(env, l, p) && (b, t) in l.log.recorded
    ensures b in l.visited
  {
    hide Metered, AttemptsCounted, ChildrenKnown, FatesFit;
    assert l.log.recorded[(b, t)] == SourceShare(env.source, l, p, b, t) + FateShare(l.fate, b, t);
    assert multiset(l.visited)[b] >= multiset(l.fate.Keys)[b];
  }

  /** The block is where a copy without failures is to leave it: in the destination if it is
      reachable, with the source's bytes if it was absent before, and untouched otherwise. */
  ghost predicate DeliveredAt(env: Env, l: Ledger, b: BlockId) {
    if b in ReachableSet(env.source, env.roots) then
      && Readable(env.source, b) && b in l.blocks
      && (l.blocks[b] == env.source[b].bytes || (b in env.initial && l.blocks[b] == env.initial[b]))
      && (b in env.initial && !env.overwrites ==> l.blocks[b] == env.initial[b])
    else (b in l.blocks <==> b in env.initial) && (b in l.blocks ==> l.blocks[b] == env.initial[b])
  }

  ghost predicate Delivered(env: Env, l: Ledger) {
    forall b :: DeliveredAt(env, l, b)
  }

  /** The block was read and decoded, and skipped or written. */
  predicate Unblemished(env: Env, l: Ledger, b: BlockId) {
    && b in l.fate && (l.fate[b].Skipped? || WentWell(l.fate[b]))
    && Readable(env.source, b) && env.source[b].decoded.Children?
  }

  /** A complete copy reports no failure if and only if every reachable block could be read
      and decoded and was skipped or written. */
  lemma FailureFreeIff(env: Env, l: Ledger, failures: multiset<CopyFailure>)
    requires Complete(env, l) && Books(env, l, NoParts) && Explains(l.log, failures)
    ensures failures == multiset{} <==> forall b :: b in ReachableSet(env.source, env.roots) ==> Unblemished(env, l, b)
  {
    hide Partitioned, Metered, AttemptsCounted, ChildrenKnown, Conserved, Explains;
    if failures == multiset{} {
      forall b | b in ReachableSet(env.source, env.roots) ensures Unblemished(env, l, b) {
        if !Unblemished(env, l, b) { BlemishIsReported(env, l, failures, b); }
      }
    }
    if forall b :: b in ReachableSet(env.source, env.roots) ==> Unblemished(env, l, b) {
      forall f | f in failures ensures false { ReportedIsBlemish(env, l, failures, f); }
    }
  }

  /** The failure that a blemished block is reported with. */
  function Blemish(source: Source, b: BlockId, f: Fate): Template {
    match f
    case CheckFailed(m) => Template(CheckDestinationBlock, m)
    case WriteFailed(m) => Template(WriteDestinationBlock, m)
    case _ => if SourceTemplates(source, b) == [] then Template(ReadSourceBlock, NotFound)
      else SourceTemplates(source, b)[0]
  }

  lemma BlemishIsReported(env: Env, l: Ledger, failures: multiset<CopyFailure>, b: BlockId)
    requires Complete(env, l) && Explained(env.source, l, NoParts) && Explains(l.log, failures)
    requires FatesFit(env.source, env.limits.mode, l, NoParts)
    requires b in ReachableSet(env.source, env.roots) && !Unblemished(env, l, b)
    ensures failures != multiset{}
  {
    hide Conserved, Reach, Attributed;
    var ts := SourceTemplates(env.source, b);
    assert FateFits(env.source, env.limits.mode, b, l.fate[b]);
    var t := Blemish(env.source, b, l.fate[b]);
    assert l.log.recorded[(b, t)] == SourceShare(env.source, l, NoParts, b, t) + FateShare(l.fate, b, t);
    if ts != [] { assert ts[0] in multiset(ts); }
    assert ReachFromAny(SourceGraph(env.source), env.roots, b);
    var root :| root in env.roots && Reach(SourceGraph(env.source), root, b);
    assert Genuine(env, root, b);
    var f := CopyFailure(root, Block(b), t);
    assert failures[f] == ExpectedCount(l.log, f) == l.log.recorded[(b, t)];
  }

  lemma ReportedIsBlemish(env: Env, l: Ledger, failures: multiset<CopyFailure>, f: CopyFailure)
    requires Complete(env, l) && Explained(env.source, l, NoParts) && Explains(l.log, failures) && f in failures
    ensures f.subject.Block? && f.subject.id in ReachableSet(env.source, env.roots)
    ensures !Unblemished(env, l, f.subject.id)
  {
    hide Conserved, Reach, Attributed;
    assert failures[f] == ExpectedCount(l.log, f);
    var b, t := f.subject.id, f.template;
    assert Genuine(env, f.root, b) && l.log.recorded[(b, t)] > 0;
    assert l.log.recorded[(b, t)] == SourceShare(env.source, l, NoParts, b, t) + FateShare(l.fate, b, t);
  }

  /** A complete copy that no look-up misled and that reports no failure has put every
      reachable block into the destination and left every other id as it was. */
  lemma FailureFreeIsDelivered(env: Env, l: Ledger)
    requires Complete(env, l) && Books(env, l, NoParts) && Faithful(env, l, NoParts)
    requires NeverMisled(env) && Explains(l.log, multiset{})
    ensures Delivered(env, l)
  {
    FailureFreeIff(env, l, multiset{});
    hide Books, Explains, AttributedExactly, Conserved, FatesExpected, Orderly, SourceTemplates;
    forall b ensures DeliveredAt(env, l, b) {
      assert BlockHolds(env, l, b);
      if b in ReachableSet(env.source, env.roots) {
        UnblemishedIsReadable(env, l, b);
        assert FateFits(env.source, env.limits.mode, b, l.fate[b]);
      }
    }
  }

  lemma UnblemishedIsReadable(env: Env, l: Ledger, b: BlockId)
    requires Unblemished(env, l, b)
    ensures Readable(env.source, b)
  {
  }

  // -------------------------------------------------- a store with fixed answers

  ghost function ExpectedClass(env: Env, k: Kind): set<BlockId>
    requires env.store.Predictable?
  {
    set b | b in ReachableSet(env.source, env.roots) && KindOf(ExpectedFate(env, b)) == k
  }

  ghost function ExpectedWritten(env: Env): set<BlockId>
    requires env.store.Predictable?
  {
    ExpectedClass(env, CopiedKind) + ExpectedClass(env, WrittenKind)
  }

  /** The destination afterwards: reachable blocks that were to be written and could be,
      over everything that was there before. */
  ghost function ExpectedBlocks(env: Env): map<BlockId, Bytes>
    requires env.store.Predictable?
  {
    map b | b in env.initial.Keys + ExpectedWritten(env) ::
      if b in ExpectedWritten(env) && Readable(env.source, b) then ValueAfterWrite(env, b)
      else if b in env.initial then env.initial[b] else []
  }

  /** How often a failure belongs in the report of an uninterrupted copy. */
  ghost function ReferenceCount(env: Env, f: CopyFailure): nat
    requires env.store.Predictable?
  {
    match f.subject
    case DestinationStore => 0
    case Block(b) =>
      if !Genuine(env, f.root, b) then 0 else
        multiset(SourceTemplates(env.source, b))[f.template] + FateShare(map[b := ExpectedFate(env, b)], b, f.template)
  }

  /** The result of a copy as a function of its inputs. */
  ghost predicate Exact(env: Env, l: Ledger)
    requires env.store.Predictable?
  {
    && Complete(env, l)
    && l.blocks == ExpectedBlocks(env)
    && (forall b :: b in l.fate ==> l.fate[b] == ExpectedFate(env, b))
    && (forall f :: ExpectedCount(l.log, f) == ReferenceCount(env, f))
    && l.metrics.copied == |ExpectedClass(env, CopiedKind)|
    && l.metrics.skipped == |ExpectedClass(env, SkippedKind)|
  }

  lemma EndIsExact(env: Env, l: Ledger)
    requires Orderly(env) && Books(env, l, NoParts) && Faithful(env, l, NoParts)
    requires OnTrack(env, l, NoFront) && Covers(env, l, NoFront)
    requires NothingLost(l) && l.log.store == multiset{}
    ensures Exact(env, l)
  {
    hide OnTrack, Covers, Partitioned, AttemptsCounted, ChildrenKnown, FatesFit, Landed, BlocksHold, Explained, Metered;
    EndIsComplete(env, l);
    forall k ensures Class(l.fate, k) == ExpectedClass(env, k) {
      forall b ensures b in Class(l.fate, k) <==> b in ExpectedClass(env, k) { }
    }
    EndBlocks(env, l);
    forall f ensures ExpectedCount(l.log, f) == ReferenceCount(env, f) {
      EndFailures(env, l, f);
    }
    EndMetrics(l);
  }

  lemma EndMetrics(l: Ledger)
    requires Metered(l, NoParts)
    ensures l.metrics.copied == |Class(l.fate, CopiedKind)| && l.metrics.skipped == |Class(l.fate, SkippedKind)|
  {
  }

  lemma EndFailures(env: Env, l: Ledger, f: CopyFailure)
    requires env.store.Predictable? && Explained(env.source, l, NoParts) && Complete(env, l)
    requires forall b :: b in l.fate ==> l.fate[b] == ExpectedFate(env, b)
    ensures ExpectedCount(l.log, f) == ReferenceCount(env, f)
  {
    hide Conserved, Reach;
    if f.subject.Block? {
      var b, t := f.subject.id, f.template;
      assert l.log.recorded[(b, t)] == SourceShare(env.source, l, NoParts, b, t) + FateShare(l.fate, b, t);
      if Genuine(env, f.root, b) {
        assert ReachFromAny(SourceGraph(env.source), env.roots, b);
        assert b in l.fate;
      }
    }
  }

  lemma EndBlocks(env: Env, l: Ledger)
    requires Orderly(env) && Faithful(env, l, NoParts) && NothingLost(l) && l.fate.Keys == l.visited
    requires forall k :: Class(l.fate, k) == ExpectedClass(env, k)
    ensures l.blocks == ExpectedBlocks(env)
  {
    hide Class, ExpectedClass, ExpectedWritten, Landed, FatesExpected, WantsWrite, Grounded;
    var written := ExpectedWritten(env);
    forall b ensures b in l.landed <==> b in written { LandedIsExpected(env, l, b); }
    forall b ensures b in l.blocks <==> b in ExpectedBlocks(env) { assert BlockHolds(env, l, b); }
    forall b | b in l.blocks ensures l.blocks[b] == ExpectedBlocks(env)[b] { assert BlockHolds(env, l, b); }
  }

  lemma LandedIsExpected(env: Env, l: Ledger, b: BlockId)
    requires Orderly(env) && Landed(l, NoParts) && FatesExpected(env, l, NoParts) && NothingLost(l)
    requires l.fate.Keys == l.visited
    requires forall k :: Class(l.fate, k) == ExpectedClass(env, k)
    ensures b in l.landed <==> b in ExpectedWritten(env)
  {
    hide ExpectedClass, WantsWrite;
    assert b in Class(l.fate, CopiedKind) <==> b in ExpectedClass(env, CopiedKind);
    assert b in Class(l.fate, WrittenKind) <==> b in ExpectedClass(env, WrittenKind);
    if b in l.landed {
      assert b in NoParts.putOk + multiset(l.landed) && b in l.fate;
    }
  }

  /** The same copy, possibly with other limits and checkpoints. */
  predicate SameTask(a: Env, b: Env) {
    b == a.(limits := b.limits) && b.limits.mode == a.limits.mode
  }

  lemma SameTaskSameOrder(a: Env, b: Env)
    requires SameTask(a, b)
    ensures Orderly(a) <==> Orderly(b)
    ensures forall x :: WantsWrite(a, x) <==> WantsWrite(b, x)
  {
  }

  lemma OrderlyIsPredictable(env: Env)
    requires Orderly(env)
    ensures env.store.Predictable?
  {
  }

  lemma SameTaskSameClass(a: Env, b: Env, k: Kind)
    requires SameTask(a, b) && a.store.Predictable?
    ensures ExpectedClass(a, k) == ExpectedClass(b, k)
  {
    forall x ensures x in ExpectedClass(a, k) <==> x in ExpectedClass(b, k) {
      assert ExpectedFate(a, x) == ExpectedFate(b, x);
    }
  }

  lemma SameTaskSameBlocks(a: Env, b: Env)
    requires SameTask(a, b) && a.store.Predictable?
    ensures ExpectedBlocks(a) == ExpectedBlocks(b)
  {
    SameTaskSameClass(a, b, CopiedKind);
    SameTaskSameClass(a, b, WrittenKind);
    hide ExpectedClass;
    assert ExpectedWritten(a) == ExpectedWritten(b);
    hide ExpectedWritten;
  }

  /** The exact result does not depend on the limits. */
  lemma SameTaskSameResult(a: Env, b: Env, l: Ledger)
    requires SameTask(a, b) && a.store.Predictable? && Exact(b, l)
    ensures Exact(a, l)
  {
    hide ExpectedBlocks, ExpectedClass, Reach;
    SameTaskSameBlocks(a, b);
    SameTaskSameClass(a, b, CopiedKind);
    SameTaskSameClass(a, b, SkippedKind);
    SameTaskSameFigures(a, b, l);
    hide Complete, ReferenceCount;
    forall f ensures ExpectedCount(l.log, f) == ReferenceCount(a, f) {
      assert ExpectedCount(l.log, f) == ReferenceCount(b, f);
    }
    forall x | x in l.fate ensures l.fate[x] == ExpectedFate(a, x) {
      assert l.fate[x] == ExpectedFate(b, x);
    }
  }

  lemma SameTaskSameFigures(a: Env, b: Env, l: Ledger)
    requires SameTask(a, b) && a.store.Predictable?
    ensures Complete(b, l) ==> Complete(a, l)
    ensures forall f :: ReferenceCount(a, f) == ReferenceCount(b, f)
  {
    hide Reach, ExpectedCount, Class;
    if Complete(b, l) {
      forall f: CopyFailure | f.subject.Block?
        ensures ExpectedCount(l.log, f) ==
          if Genuine(a, f.root, f.subject.id) then l.log.recorded[(f.subject.id, f.template)] else 0
      {
        assert Genuine(a, f.root, f.subject.id) <==> Genuine(b, f.root, f.subject.id);
      }
    }
    forall f ensures ReferenceCount(a, f) == ReferenceCount(b, f) {
      if f.subject.Block? {
        assert ExpectedFate(a, f.subject.id) == ExpectedFate(b, f.subject.id);
        assert Genuine(a, f.root, f.subject.id) <==> Genuine(b, f.root, f.subject.id);
      }
    }
  }

  /** Two exact copies agree on the destination, the visited set and the whole report. */
  lemma ExactIsUnique(a: Env, b: Env, l1: Ledger, l2: Ledger, f1: multiset<CopyFailure>, f2: multiset<CopyFailure>)
    requires SameTask(a, b) && a.store.Predictable?
    requires Exact(a, l1) && Exact(b, l2) && Explains(l1.log, f1) && Explains(l2.log, f2)
    ensures l1.blocks == l2.blocks && l1.visited == l2.visited && l1.fate == l2.fate
    ensures ReportOf(a, l1, f1) == ReportOf(b, l2, f2)
  {
    hide Explains, ExpectedCount, AttributedExactly, Conserved, ReferenceCount, ExpectedFate, ExpectedBlocks;
    hide ExpectedClass;
    SameTaskSameResult(a, b, l2);
    SameFailures(a, l1, l2, f1, f2);
    FatesDetermined(a, l1, l2);
    if a.limits.mode == WriteQueue.BlindWrite { SameAttempts(a, l1, l2); }
    hide Exact;
  }

  lemma SameAttempts(env: Env, l1: Ledger, l2: Ledger)
    requires Conserved(env, l1) && Conserved(env, l2) && l1.fate == l2.fate && l1.visited == l2.visited
    requires env.limits.mode == WriteQueue.BlindWrite
    ensures l1.metrics.attempted == l2.metrics.attempted
  {
  }

  lemma FatesDetermined(env: Env, l1: Ledger, l2: Ledger)
    requires env.store.Predictable? && l1.fate.Keys == l2.fate.Keys
    requires forall b :: b in l1.fate ==> l1.fate[b] == ExpectedFate(env, b)
    requires forall b :: b in l2.fate ==> l2.fate[b] == ExpectedFate(env, b)
    ensures l1.fate == l2.fate
  {
  }

  lemma SameFailures(env: Env, l1: Ledger, l2: Ledger, f1: multiset<CopyFailure>, f2: multiset<CopyFailure>)
    requires env.store.Predictable? && Explains(l1.log, f1) && Explains(l2.log, f2)
    requires forall f :: ExpectedCount(l1.log, f) == ReferenceCount(env, f)
    requires forall f :: ExpectedCount(l2.log, f) == ReferenceCount(env, f)
    ensures f1 == f2
  {
    hide Attributed, Reach;
    forall f ensures f1[f] == f2[f] {
      assert f1[f] == ExpectedCount(l1.log, f) == ReferenceCount(env, f);
      assert f2[f] == ExpectedCount(l2.log, f) == ReferenceCount(env, f);
    }
  }
}
