/** What the report of an uninterrupted copy says, in terms of the source, of the destination
    before the copy and of what became of each block. */
module CopyReport {
  import opened Options
  import opened BlockGraph
  import opened FailureTracker
  import opened Ledger
  import opened Destination
  import opened Frontier
  import opened Outcome
  import WriteQueue

  // -------------------------------------------------------------- what is reachable

  /** The set holds the roots, and the children of every block in it that can be read and
      decoded. */
  ghost predicate Closed(env: Env, s: set<BlockId>) {
    && (forall r :: r in env.roots ==> r in s)
    && (forall b, c :: b in s && IsChild(env.source, b, c) ==> c in s)
  }

  predicate IsChild(source: Source, b: BlockId, c: BlockId) {
    b in source && source[b].Present? && source[b].decoded.Children? && c in source[b].decoded.ids
  }

  /** What a copy visits is the least such set. */
  lemma ReachableIsLeast(env: Env)
    ensures Closed(env, ReachableSet(env.source, env.roots))
    ensures forall s :: Closed(env, s) ==> ReachableSet(env.source, env.roots) <= s
  {
    hide Reach;
    var g := SourceGraph(env.source);
    forall r | r in env.roots ensures r in ReachableSet(env.source, env.roots) { ReachSelf(g, r); }
    forall b, c | b in ReachableSet(env.source, env.roots) && IsChild(env.source, b, c)
      ensures c in ReachableSet(env.source, env.roots)
    {
      var r :| r in env.roots && Reach(g, r, b);
      ReachStep(g, r, b, c);
    }
    forall s, b | Closed(env, s) && b in ReachableSet(env.source, env.roots) ensures b in s {
      var r :| r in env.roots && Reach(g, r, b);
      forall x, c | x in s && c in ChildrenIn(g, x) ensures c in s { assert IsChild(env.source, x, c); }
      ClosedHoldsReach(g, s, r, b);
    }
  }

  // ------------------------------------------------------------------- the failures

  /** How often a failure is reported: once for each requested root that reaches the block,
      with the operation that failed and its message. */
  ghost function TimesReported(env: Env, fate: map<BlockId, Fate>, f: CopyFailure): nat {
    if !f.subject.Block? || f.root !in env.roots || !Reach(SourceGraph(env.source), f.root, f.subject.id) then 0
    else if Failed(env, fate, f.subject.id, f.template.operation, f.template.message) then 1
    else 0
  }

  predicate Failed(env: Env, fate: map<BlockId, Fate>, b: BlockId, operation: Operation, message: string) {
    match operation
    case ReadSourceBlock =>
      if b in env.source then env.source[b] == ReadError(message) else message == "source block was not found"
    case DecodeSourceBlock =>
      b in env.source && env.source[b].Present? && env.source[b].decoded == Undecodable(message)
    case CheckDestinationBlock => b in fate && fate[b] == CheckFailed(message)
    case WriteDestinationBlock => b in fate && fate[b] == WriteFailed(message)
    case CompactDestinationStore => false
  }

  lemma FailuresAreReported(env: Env, l: Ledger, failures: multiset<CopyFailure>, f: CopyFailure)
    requires Complete(env, l) && Explained(env.source, l, NoParts) && Explains(l.log, failures)
    ensures failures[f] == TimesReported(env, l.fate, f)
  {
    hide Conserved, Reach, Attributed, Explained, Failed, NothingLost;
    assert failures[f] == ExpectedCount(l.log, f);
    if f.subject.Block? && Genuine(env, f.root, f.subject.id) {
      assert ReachFromAny(SourceGraph(env.source), env.roots, f.subject.id);
      RecordedAre(env, l, f.subject.id, f.template);
    }
  }

  lemma RecordedAre(env: Env, l: Ledger, b: BlockId, t: Template)
    requires Explained(env.source, l, NoParts) && b in l.visited
    ensures l.log.recorded[(b, t)] == if Failed(env, l.fate, b, t.operation, t.message) then 1 else 0
  {
    assert l.log.recorded[(b, t)] == SourceShare(env.source, l, NoParts, b, t) + FateShare(l.fate, b, t);
    hide Explained;
    assert multiset(SourceTemplates(env.source, b))[t] == if t in SourceTemplates(env.source, b) then 1 else 0;
  }

  // -------------------------------------------------------------------- the figures

  predicate Fails(env: Env, fate: map<BlockId, Fate>, b: BlockId) {
    || b !in env.source
    || env.source[b].ReadError?
    || env.source[b].decoded.Undecodable?
    || (b in fate && (fate[b].CheckFailed? || fate[b].WriteFailed?))
  }

  /** The report of an uninterrupted copy that gave the blocks these fates. */
  ghost predicate Tells(env: Env, fate: map<BlockId, Fate>, r: Report) {
    && (forall f :: r.failures[f] == TimesReported(env, fate, f))
    && r.failedBlockCount == |set b | b in fate && Fails(env, fate, b)|
    && (env.limits.mode == WriteQueue.ReadBeforeWrite ==>
         && r.copied == Some(|set b | b in fate && fate[b] == Copied|)
         && r.skipped == Some(|set b | b in fate && fate[b] == Skipped|)
         && r.attempted == None)
    && (env.limits.mode == WriteQueue.BlindWrite ==>
         && r.attempted == Some(|set b | b in fate && fate[b] != ReadFailed|)
         && r.copied == None && r.skipped == None)
  }

  /** A block fails if and only if some failure of it is reported for some root. */
  lemma FailsIff(env: Env, l: Ledger, failures: multiset<CopyFailure>, b: BlockId)
    requires Complete(env, l) && Explained(env.source, l, NoParts) && Explains(l.log, failures)
    ensures Block(b) in SubjectsOf(failures) <==> b in l.fate && Fails(env, l.fate, b)
  {
    hide Conserved, Reach, AttributedExactly, Explained, Explains;
    if Block(b) in SubjectsOf(failures) {
      var f :| f in failures && f.subject == Block(b);
      FailuresAreReported(env, l, failures, f);
      assert ReachFromAny(SourceGraph(env.source), env.roots, b);
    }
    if b in l.fate && Fails(env, l.fate, b) {
      var root :| root in env.roots && Reach(SourceGraph(env.source), root, b);
      var f := CopyFailure(root, Block(b), Symptom(env, l.fate, b));
      FailuresAreReported(env, l, failures, f);
      assert f in failures && f.subject == Block(b);
    }
  }

  function Symptom(env: Env, fate: map<BlockId, Fate>, b: BlockId): Template
    requires b in fate && Fails(env, fate, b)
  {
    if b !in env.source then Template(ReadSourceBlock, NotFound)
    else match env.source[b]
      case ReadError(m) => Template(ReadSourceBlock, m)
      case Present(_, Undecodable(m)) => Template(DecodeSourceBlock, m)
      case Present(_, Children(_)) =>
        match fate[b]
        case CheckFailed(m) => Template(CheckDestinationBlock, m)
        case _ => Template(WriteDestinationBlock, fate[b].message)
  }

  lemma FailedBlocksAreCounted(env: Env, l: Ledger, failures: multiset<CopyFailure>)
    requires Complete(env, l) && Explained(env.source, l, NoParts) && Explains(l.log, failures)
    ensures |SubjectsOf(failures)| == |set b | b in l.fate && Fails(env, l.fate, b)|
  {
    hide Complete, Explained, Explains, Fails;
    var failed := set b | b in l.fate && Fails(env, l.fate, b);
    forall f | f in failures ensures f.subject.Block? {
      FailuresAreReported(env, l, failures, f);
    }
    forall s ensures s in SubjectsOf(failures) <==> s.Block? && s.id in failed {
      if s.Block? { FailsIff(env, l, failures, s.id); }
    }
    AsManySubjects(SubjectsOf(failures), failed);
  }

  lemma {:induction false} AsManySubjects(subjects: set<Subject>, ids: set<BlockId>)
    requires forall s :: s in subjects <==> s.Block? && s.id in ids
    ensures |subjects| == |ids|
    decreases |ids|
  {
    if ids == {} {
      assert subjects == {};
    } else {
      var b :| b in ids;
      assert Block(b) in subjects;
      AsManySubjects(subjects - {Block(b)}, ids - {b});
    }
  }

  lemma FiguresAre(env: Env, l: Ledger)
    requires Metered(l, NoParts) && Conserved(env, l) && l.fate.Keys == l.visited
    ensures l.metrics.copied == |set b | b in l.fate && l.fate[b] == Copied|
    ensures l.metrics.skipped == |set b | b in l.fate && l.fate[b] == Skipped|
    ensures env.limits.mode == WriteQueue.BlindWrite ==>
      l.metrics.attempted == |set b | b in l.fate && l.fate[b] != ReadFailed|
  {
    ClassesAre(l.fate);
    hide Class;
    var read := set b | b in l.fate && l.fate[b] != ReadFailed;
    assert |l.fate.Keys| == |read| + |Class(l.fate, ReadFailedKind)|;
  }

  lemma ClassesAre(fate: map<BlockId, Fate>)
    ensures Class(fate, CopiedKind) == set b | b in fate && fate[b] == Copied
    ensures Class(fate, SkippedKind) == set b | b in fate && fate[b] == Skipped
    ensures var read := set b | b in fate && fate[b] != ReadFailed;
      fate.Keys == read + Class(fate, ReadFailedKind) && read !! Class(fate, ReadFailedKind)
  {
  }

  /** The report of a complete copy. */
  lemma ReportTells(env: Env, l: Ledger, failures: multiset<CopyFailure>)
    requires Complete(env, l) && Books(env, l, NoParts) && Explains(l.log, failures)
    ensures Tells(env, l.fate, ReportOf(env, l, failures))
  {
    hide Explains, Explained, TimesReported, Partitioned, Metered, AttemptsCounted, ChildrenKnown, FatesFit;
    hide SubjectsOf, Fails, NothingLost, AttributedExactly, Conserved;
    FiguresAre(env, l);
    FailedBlocksAreCounted(env, l, failures);
    hide Complete;
    forall f ensures failures[f] == TimesReported(env, l.fate, f) { FailuresAreReported(env, l, failures, f); }
  }

  // -------------------------------------------------- a store with fixed answers

  predicate Absent(env: Env, b: BlockId) {
    && Readable(env.source, b) && b !in env.checkErrors && b !in env.initial
  }

  predicate BoundToFail(env: Env, b: BlockId)
    requires env.store.Predictable?
  {
    || !Readable(env.source, b)
    || env.source[b].decoded.Undecodable?
    || (env.limits.mode == WriteQueue.ReadBeforeWrite && b in env.checkErrors)
    || ((env.limits.mode == WriteQueue.BlindWrite || Absent(env, b)) && b in env.store.writeErrors)
  }

  /** The report of an uninterrupted copy into an orderly store, from the inputs alone. */
  ghost predicate Foretold(env: Env, r: Report)
    requires env.store.Predictable?
  {
    var reachable, refused := ReachableSet(env.source, env.roots), env.store.writeErrors.Keys;
    && r.failedBlockCount == |set b | b in reachable && BoundToFail(env, b)|
    && (env.limits.mode == WriteQueue.ReadBeforeWrite ==>
         && r.copied == Some(|set b | b in reachable && Absent(env, b) && b !in refused|)
         && r.skipped ==
              Some(|set b | b in reachable && Readable(env.source, b) && b !in env.checkErrors && b in env.initial|)
         && r.attempted == None)
    && (env.limits.mode == WriteQueue.BlindWrite ==>
         && r.attempted == Some(|set b | b in reachable && Readable(env.source, b)|)
         && r.copied == None && r.skipped == None)
  }

  lemma ReportIsForetold(env: Env, l: Ledger, failures: multiset<CopyFailure>)
    requires env.store.Predictable? && Exact(env, l) && Books(env, l, NoParts) && Explains(l.log, failures)
    ensures Foretold(env, ReportOf(env, l, failures))
  {
    ReportTells(env, l, failures);
    ForetoldFates(env, l);
    hide Exact, Books, Explains;
    hide ReportOf;
  }

  lemma ForetoldFates(env: Env, l: Ledger)
    requires env.store.Predictable? && Exact(env, l)
    ensures var reachable, refused := ReachableSet(env.source, env.roots), env.store.writeErrors.Keys;
      && (set b | b in l.fate && Fails(env, l.fate, b)) == (set b | b in reachable && BoundToFail(env, b))
      && (env.limits.mode == WriteQueue.ReadBeforeWrite ==>
           && (set b | b in l.fate && l.fate[b] == Copied) ==
                (set b | b in reachable && Absent(env, b) && b !in refused)
           && (set b | b in l.fate && l.fate[b] == Skipped) ==
                (set b | b in reachable && Readable(env.source, b) && b !in env.checkErrors && b in env.initial))
      && (set b | b in l.fate && l.fate[b] != ReadFailed) == (set b | b in reachable && Readable(env.source, b))
  {
    hide AttributedExactly, Conserved, ExpectedBlocks, ExpectedClass, ExpectedCount, ReferenceCount, ExpectedFate;
    hide Fails, BoundToFail, Absent, NothingLost, ReachFromAny;
    assert l.fate.Keys == ReachableSet(env.source, env.roots);
    forall b | b in l.fate
      ensures Fails(env, l.fate, b) <==> BoundToFail(env, b)
      ensures l.fate[b] != ReadFailed <==> Readable(env.source, b)
      ensures env.limits.mode == WriteQueue.ReadBeforeWrite ==>
        && (l.fate[b] == Copied <==> Absent(env, b) && b !in env.store.writeErrors)
        && (l.fate[b] == Skipped <==> Readable(env.source, b) && b !in env.checkErrors && b in env.initial)
    {
      ForetoldFate(env, l.fate, b);
    }
  }

  lemma ForetoldFate(env: Env, fate: map<BlockId, Fate>, b: BlockId)
    requires env.store.Predictable? && b in fate && fate[b] == ExpectedFate(env, b)
    ensures Fails(env, fate, b) <==> BoundToFail(env, b)
    ensures fate[b] != ReadFailed <==> Readable(env.source, b)
    ensures env.limits.mode == WriteQueue.ReadBeforeWrite ==>
      && (fate[b] == Copied <==> Absent(env, b) && b !in env.store.writeErrors)
      && (fate[b] == Skipped <==> Readable(env.source, b) && b !in env.checkErrors && b in env.initial)
  {
  }
}
