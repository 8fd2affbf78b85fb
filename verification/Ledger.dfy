/** The state that every worker of a rooted copy shares (the visited set, the failure
    log, the metrics and the destination), the operations on it, and the books it keeps:
    at every moment each visited block is accounted for exactly once. */
module Ledger {
  import opened Options
  import opened BlockGraph
  import opened FailureTracker
  import WriteQueue
  type Mode = WriteQueue.Mode
  type Job = WriteQueue.Job

  /** How the destination answers. A predictable store looks up truly, fails the same single
      writes every time, and either supports batches or never does. An erratic one may fail
      any write at any time; it may still look up truly, and its batch support may be fixed. */
  datatype StoreModel =
    | Predictable(writeErrors: map<BlockId, string>, batches: bool)
    | Erratic(truthful: bool, support: Option<bool>)

  /** What the store says is present is present, and what it says is absent is absent. */
  predicate LooksUpTruly(store: StoreModel) { store.Predictable? || store.truthful }

  /** Whether the store takes batches, if it always answers that question alike. */
  function FixedSupport(store: StoreModel): Option<bool> {
    if store.Predictable? then Some(store.batches) else store.support
  }

  /** One copy invocation. `overwrites` says whether a write over a present block changes it. */
  datatype Env = Env(
    source: Source,
    roots: seq<BlockId>,
    initial: map<BlockId, Bytes>,
    checkErrors: map<BlockId, string>,
    store: StoreModel,
    overwrites: bool,
    limits: WriteQueue.Limits)

  datatype Metrics = Metrics(readCount: nat, copied: nat, skipped: nat, attempted: nat)

  /** What finally became of a visited block. The last two arise only after a stop. */
  datatype Fate =
    | ReadFailed
    | CheckFailed(message: string)
    | Skipped
    | Copied
    | Written
    | WriteFailed(message: string)
    | Abandoned
    | Discarded

  datatype Kind =
    | ReadFailedKind | CheckFailedKind | SkippedKind | CopiedKind
    | WrittenKind | WriteFailedKind | AbandonedKind | DiscardedKind

  function KindOf(f: Fate): Kind {
    match f
    case ReadFailed => ReadFailedKind
    case CheckFailed(_) => CheckFailedKind
    case Skipped => SkippedKind
    case Copied => CopiedKind
    case Written => WrittenKind
    case WriteFailed(_) => WriteFailedKind
    case Abandoned => AbandonedKind
    case Discarded => DiscardedKind
  }

  /** `fate` and `landed` are history: the outcome of each finished block, and the blocks
      some write put into the destination. */
  datatype Ledger = Ledger(
    visited: set<BlockId>,
    log: FailureLog,
    metrics: Metrics,
    blocks: map<BlockId, Bytes>,
    fate: map<BlockId, Fate>,
    landed: set<BlockId>)

  datatype Completion = Completion(block: BlockId, bytesLen: nat, countAsCopied: bool, error: Option<string>)

  function Opened(env: Env): Ledger {
    Ledger({}, EmptyLog, Metrics(0, 0, 0, 0), env.initial, map[], {})
  }

  const NotFound := "source block was not found"

  /** The failures that reading and decoding a block records. */
  function SourceTemplates(source: Source, b: BlockId): seq<Template> {
    if b !in source then [Template(ReadSourceBlock, NotFound)]
    else match source[b] {
      case ReadError(m) => [Template(ReadSourceBlock, m)]
      case Present(_, Undecodable(m)) => [Template(DecodeSourceBlock, m)]
      case Present(_, Children(_)) => []
    }
  }

  // ----------------------------------------------------------------- operations

  function NoteAt(l: Ledger, root: BlockId, b: BlockId): Ledger { l.(log := Noted(l.log, root, b)) }

  function Visit(l: Ledger, b: BlockId): Ledger { l.(visited := l.visited + {b}) }

  function CountRead(l: Ledger): Ledger { l.(metrics := l.metrics.(readCount := l.metrics.readCount + 1)) }

  function FailRead(source: Source, l: Ledger, b: BlockId): Ledger
    requires !Readable(source, b)
  {
    l.(log := Recorded(l.log, b, SourceTemplates(source, b)[0]), fate := l.fate[b := ReadFailed])
  }

  function Decode(source: Source, l: Ledger, b: BlockId): Ledger {
    var log := if SourceTemplates(source, b) != [] then Recorded(l.log, b, SourceTemplates(source, b)[0]) else l.log;
    l.(log := Remembered(log, b, ChildrenOf(source, b)))
  }

  function SkipPresent(l: Ledger, b: BlockId): Ledger {
    l.(metrics := l.metrics.(skipped := l.metrics.skipped + 1), fate := l.fate[b := Skipped])
  }

  function FailCheck(l: Ledger, b: BlockId, m: string): Ledger {
    l.(log := Recorded(l.log, b, Template(CheckDestinationBlock, m)), fate := l.fate[b := CheckFailed(m)])
  }

  function CountAttempt(l: Ledger): Ledger { l.(metrics := l.metrics.(attempted := l.metrics.attempted + 1)) }

  function Put(env: Env, blocks: map<BlockId, Bytes>, job: Job): map<BlockId, Bytes> {
    if job.block in blocks && !env.overwrites then blocks else blocks[job.block := job.bytes]
  }

  function Land(env: Env, l: Ledger, job: Job): Ledger {
    l.(blocks := Put(env, l.blocks, job), landed := l.landed + {job.block})
  }

  function SettledFate(c: Completion): Fate {
    match c.error
    case Some(m) => WriteFailed(m)
    case None => if c.countAsCopied then Copied else Written
  }

  function Settle(l: Ledger, c: Completion): Ledger {
    var settled := l.(fate := l.fate[c.block := SettledFate(c)]);
    match c.error
    case Some(m) => settled.(log := Recorded(l.log, c.block, Template(WriteDestinationBlock, m)))
    case None =>
      if c.countAsCopied then settled.(metrics := l.metrics.(copied := l.metrics.copied + 1)) else settled
  }

  function Abandon(l: Ledger, b: BlockId): Ledger { l.(fate := l.fate[b := Abandoned]) }

  function Discard(l: Ledger, jobs: seq<Job>): Ledger
    decreases |jobs|
  {
    if jobs == [] then l else Discard(l.(fate := l.fate[jobs[0].block := Discarded]), jobs[1..])
  }

  function FailStore(l: Ledger, roots: seq<BlockId>, m: string): Ledger {
    l.(log := StoreFailed(l.log, roots, Template(CompactDestinationStore, m)))
  }

  // -------------------------------------------------------------------- the books

  /** Where the visited blocks without a fate are: being read or decoded, in the hands of
      a traversal worker, waiting to be written, and written well or badly but not yet
      recorded. `unread` counts reads not yet begun, `uncounted` accepted writes whose
      attempt is not yet counted. */
  datatype Parts = Parts(
    reading: multiset<BlockId>,
    held: multiset<BlockId>,
    waiting: multiset<BlockId>,
    putOk: multiset<BlockId>,
    putErr: multiset<BlockId>,
    unread: nat,
    uncounted: nat)

  const NoParts := Parts(multiset{}, multiset{}, multiset{}, multiset{}, multiset{}, 0, 0)

  function Outstanding(p: Parts): multiset<BlockId> {
    p.reading + p.held + p.waiting + p.putOk + p.putErr
  }

  ghost predicate Partitioned(l: Ledger, p: Parts) {
    multiset(l.visited) == multiset(l.fate.Keys) + Outstanding(p)
  }

  function FateShare(fate: map<BlockId, Fate>, b: BlockId, t: Template): nat {
    if b !in fate then 0
    else match fate[b] {
      case CheckFailed(m) => if t == Template(CheckDestinationBlock, m) then 1 else 0
      case WriteFailed(m) => if t == Template(WriteDestinationBlock, m) then 1 else 0
      case _ => 0
    }
  }

  function SourceShare(source: Source, l: Ledger, p: Parts, b: BlockId, t: Template): nat {
    if b in l.visited && b !in p.reading then multiset(SourceTemplates(source, b))[t] else 0
  }

  /** Every recorded failure has its cause, once: the source, or the block's fate. */
  ghost predicate Explained(source: Source, l: Ledger, p: Parts) {
    forall b, t :: l.log.recorded[(b, t)] == SourceShare(source, l, p, b, t) + FateShare(l.fate, b, t)
  }

  function Class(fate: map<BlockId, Fate>, k: Kind): set<BlockId> {
    set b | b in fate && KindOf(fate[b]) == k
  }

  ghost predicate Metered(l: Ledger, p: Parts) {
    && l.metrics.readCount + p.unread == |l.visited|
    && l.metrics.copied == |Class(l.fate, CopiedKind)|
    && l.metrics.skipped == |Class(l.fate, SkippedKind)|
  }

  /** Blind mode: every accepted write is counted once. */
  ghost predicate AttemptsCounted(mode: Mode, l: Ledger, p: Parts) {
    mode == WriteQueue.BlindWrite ==>
      l.metrics.attempted + p.uncounted
        == |Class(l.fate, WrittenKind)| + |Class(l.fate, WriteFailedKind)| + |Class(l.fate, DiscardedKind)|
         + |p.waiting| + |p.putOk| + |p.putErr|
  }

  ghost predicate ChildrenKnown(source: Source, l: Ledger, p: Parts) {
    && (forall b :: b in l.log.children <==> b in l.visited && b !in p.reading && Readable(source, b))
    && (forall b :: b in l.log.children ==> l.log.children[b] == ChildrenOf(source, b))
  }

  /** What a fate says about the block and the mode. */
  predicate FateFits(source: Source, mode: Mode, b: BlockId, f: Fate) {
    && (f == ReadFailed <==> !Readable(source, b))
    && (f.CheckFailed? || f.Skipped? || f.Copied? ==> mode == WriteQueue.ReadBeforeWrite)
    && (f.Written? ==> mode == WriteQueue.BlindWrite)
  }

  ghost predicate FatesFit(source: Source, mode: Mode, l: Ledger, p: Parts) {
    && (forall b :: b in l.fate ==> FateFits(source, mode, b, l.fate[b]))
    && (forall b :: b in p.held + p.waiting + p.putOk + p.putErr ==> Readable(source, b))
  }

  ghost predicate Books(env: Env, l: Ledger, p: Parts) {
    && Partitioned(l, p)
    && Explained(env.source, l, p)
    && Metered(l, p)
    && AttemptsCounted(env.limits.mode, l, p)
    && ChildrenKnown(env.source, l, p)
    && FatesFit(env.source, env.limits.mode, l, p)
  }

  // ------------------------------------------------------- every operation keeps it

  lemma PartNotFinished(l: Ledger, p: Parts, b: BlockId)
    requires Partitioned(l, p)
    requires b in Outstanding(p)
    ensures b in l.visited && b !in l.fate && Outstanding(p)[b] == 1
  {
    assert multiset(l.visited)[b] <= 1;
    assert multiset(l.visited)[b] == multiset(l.fate.Keys)[b] + Outstanding(p)[b];
  }

  lemma ClassGrows(fate: map<BlockId, Fate>, b: BlockId, f: Fate, k: Kind)
    requires b !in fate
    ensures Class(fate[b := f], k) == if KindOf(f) == k then Class(fate, k) + {b} else Class(fate, k)
    ensures |Class(fate[b := f], k)| == |Class(fate, k)| + if KindOf(f) == k then 1 else 0
  {
    assert b !in Class(fate, k);
  }

  lemma OpenedBooks(env: Env)
    ensures Books(env, Opened(env), NoParts)
  {
    forall k ensures Class(map[], k) == {} { }
  }

  lemma NoteKeepsBooks(env: Env, l: Ledger, p: Parts, root: BlockId, b: BlockId)
    requires Books(env, l, p)
    ensures Books(env, NoteAt(l, root, b), p)
  {
  }

  /** A block leaves one part of the books and gets its fate. */
  lemma FinishKeepsPartition(l: Ledger, p: Parts, l': Ledger, p': Parts, b: BlockId, f: Fate)
    requires Partitioned(l, p) && b in Outstanding(p)
    requires l'.visited == l.visited && l'.fate == l.fate[b := f] && Outstanding(p) == Outstanding(p') + multiset{b}
    ensures Partitioned(l', p')
  {
    PartNotFinished(l, p, b);
    assert l'.fate.Keys == l.fate.Keys + {b};
    assert multiset(l'.fate.Keys) == multiset(l.fate.Keys) + multiset{b};
  }

  lemma VisitKeepsPartition(l: Ledger, p: Parts, b: BlockId)
    requires Partitioned(l, p) && b !in l.visited
    ensures b !in p.reading && b !in l.fate
    ensures Partitioned(Visit(l, b), p.(reading := p.reading + multiset{b}, unread := p.unread + 1))
  {
    var p' := p.(reading := p.reading + multiset{b}, unread := p.unread + 1);
    assert multiset(l.visited + {b}) == multiset(l.visited) + multiset{b};
    if b in p.reading { PartNotFinished(l, p, b); }
    assert multiset(l.visited)[b] == multiset(l.fate.Keys)[b] + Outstanding(p)[b];
    assert Outstanding(p') == Outstanding(p) + multiset{b};
  }

  lemma VisitKeepsExplained(source: Source, l: Ledger, p: Parts, b: BlockId)
    requires Explained(source, l, p) && b !in l.visited && b !in p.reading
    ensures Explained(source, Visit(l, b), p.(reading := p.reading + multiset{b}, unread := p.unread + 1))
  {
    var l', p' := Visit(l, b), p.(reading := p.reading + multiset{b}, unread := p.unread + 1);
    forall x, t ensures l'.log.recorded[(x, t)] == SourceShare(source, l', p', x, t) + FateShare(l'.fate, x, t) {
      assert l.log.recorded[(x, t)] == SourceShare(source, l, p, x, t) + FateShare(l.fate, x, t);
    }
  }

  lemma VisitKeepsBooks(env: Env, l: Ledger, p: Parts, b: BlockId)
    requires Books(env, l, p) && b !in l.visited
    ensures Books(env, Visit(l, b), p.(reading := p.reading + multiset{b}, unread := p.unread + 1))
  {
    hide FateFits, Readable, Class;
    VisitKeepsPartition(l, p, b);
    VisitKeepsExplained(env.source, l, p, b);
    hide Partitioned, Explained, FatesFit;
    assert FatesFit(env.source, env.limits.mode, Visit(l, b),
      p.(reading := p.reading + multiset{b}, unread := p.unread + 1)) by { VisitKeepsFit(env, l, p, b); }
  }

  lemma VisitKeepsFit(env: Env, l: Ledger, p: Parts, b: BlockId)
    requires FatesFit(env.source, env.limits.mode, l, p)
    ensures FatesFit(env.source, env.limits.mode, Visit(l, b),
      p.(reading := p.reading + multiset{b}, unread := p.unread + 1))
  {
    hide FateFits, Readable;
  }

  lemma CountReadKeepsBooks(env: Env, l: Ledger, p: Parts)
    requires Books(env, l, p) && p.unread > 0
    ensures Books(env, CountRead(l), p.(unread := p.unread - 1))
  {
    ExplainedAlike(env.source, l, p, CountRead(l), p.(unread := p.unread - 1));
  }

  lemma ExplainedAlike(source: Source, l: Ledger, p: Parts, l': Ledger, p': Parts)
    requires Explained(source, l, p) && l'.log.recorded == l.log.recorded && l'.visited == l.visited
    requires p'.reading == p.reading
    requires forall b, t :: FateShare(l'.fate, b, t) == FateShare(l.fate, b, t)
    ensures Explained(source, l', p')
  {
    forall x, t ensures l'.log.recorded[(x, t)] == SourceShare(source, l', p', x, t) + FateShare(l'.fate, x, t) {
      assert l.log.recorded[(x, t)] == SourceShare(source, l, p, x, t) + FateShare(l.fate, x, t);
    }
  }

  /** Reading or decoding a block settles its share of the recorded failures. */
  lemma ReadingExplained(source: Source, l: Ledger, p: Parts, l': Ledger, p': Parts, b: BlockId)
    requires Explained(source, l, p) && Partitioned(l, p) && b in p.reading
    requires l'.visited == l.visited && p'.reading == p.reading - multiset{b}
    requires l'.log.recorded == l.log.recorded + multiset(Tagged(b, SourceTemplates(source, b)))
    requires forall x, t :: FateShare(l'.fate, x, t) == FateShare(l.fate, x, t)
    ensures Explained(source, l', p')
  {
    PartNotFinished(l, p, b);
    forall x, t ensures l'.log.recorded[(x, t)] == SourceShare(source, l', p', x, t) + FateShare(l'.fate, x, t) {
      assert l.log.recorded[(x, t)] == SourceShare(source, l, p, x, t) + FateShare(l.fate, x, t);
      TaggedCounts(source, b, x, t);
    }
  }

  lemma FitFinish(source: Source, mode: Mode, l: Ledger, p: Parts, l': Ledger, p': Parts, b: BlockId, f: Fate)
    requires FatesFit(source, mode, l, p) && FateFits(source, mode, b, f) && l'.fate == l.fate[b := f]
    requires p'.held <= p.held && p'.waiting <= p.waiting && p'.putOk <= p.putOk && p'.putErr <= p.putErr
    ensures FatesFit(source, mode, l', p')
  {
    forall x | x in p'.held + p'.waiting + p'.putOk + p'.putErr ensures Readable(source, x) {
      assert x in p.held + p.waiting + p.putOk + p.putErr;
    }
  }

  lemma ChildrenKnownAlike(source: Source, l: Ledger, p: Parts, l': Ledger, p': Parts)
    requires ChildrenKnown(source, l, p) && l'.visited == l.visited && l'.log.children == l.log.children
    requires forall b :: b in p.reading && b !in p'.reading ==> !Readable(source, b)
    requires p'.reading <= p.reading
    ensures ChildrenKnown(source, l', p')
  {
  }

  function Tagged(b: BlockId, ts: seq<Template>): seq<(BlockId, Template)> {
    seq(|ts|, i requires 0 <= i < |ts| => (b, ts[i]))
  }

  lemma TaggedCounts(source: Source, b: BlockId, x: BlockId, t: Template)
    ensures multiset(Tagged(b, SourceTemplates(source, b)))[(x, t)]
         == if x == b then multiset(SourceTemplates(source, b))[t] else 0
  {
    var ts := SourceTemplates(source, b);
    if ts != [] {
      assert ts == [ts[0]] && Tagged(b, ts) == [(b, ts[0])];
    }
  }

  /** A block leaves the books with a fate that fits it; the counters follow the fate. */
  lemma FinishKeepsBooks(env: Env, l: Ledger, p: Parts, l': Ledger, p': Parts, b: BlockId, f: Fate)
    requires Books(env, l, p) && Explained(env.source, l', p') && b in Outstanding(p)
    requires l'.visited == l.visited && l'.log.children == l.log.children && l'.fate == l.fate[b := f]
    requires Outstanding(p) == Outstanding(p') + multiset{b} && FateFits(env.source, env.limits.mode, b, f)
    requires p'.reading <= p.reading && p'.held <= p.held && p'.waiting <= p.waiting && p'.putOk <= p.putOk
    requires p'.putErr <= p.putErr
    requires forall x :: x in p.reading && x !in p'.reading ==> !Readable(env.source, x)
    requires p'.unread == p.unread && p'.uncounted == p.uncounted
    requires l'.metrics == l.metrics.(copied := l.metrics.copied + if f == Copied then 1 else 0,
                                      skipped := l.metrics.skipped + if f == Skipped then 1 else 0)
    requires |p.waiting| + |p.putOk| + |p.putErr|
          == |p'.waiting| + |p'.putOk| + |p'.putErr|
           + if f.Copied? || f.Written? || f.WriteFailed? || f.Discarded? then 1 else 0
    ensures Books(env, l', p')
  {
    hide Partitioned, Explained, FatesFit, ChildrenKnown;
    PartNotFinished(l, p, b);
    FinishKeepsPartition(l, p, l', p', b, f);
    ClassesGrow(l.fate, b, f);
    FitFinish(env.source, env.limits.mode, l, p, l', p', b, f);
    ChildrenKnownAlike(env.source, l, p, l', p');
  }

  lemma PartIsOpen(env: Env, l: Ledger, p: Parts, b: BlockId)
    requires Books(env, l, p) && b in Outstanding(p)
    ensures b in l.visited && b !in l.fate && Outstanding(p)[b] == 1
    ensures Partitioned(l, p) && Explained(env.source, l, p)
  {
    PartNotFinished(l, p, b);
  }

  lemma QuietFate(fate: map<BlockId, Fate>, b: BlockId, f: Fate)
    requires b !in fate && !f.CheckFailed? && !f.WriteFailed?
    ensures forall x, t :: FateShare(fate[b := f], x, t) == FateShare(fate, x, t)
  {
  }

  lemma HeldIsReadable(env: Env, l: Ledger, p: Parts, b: BlockId)
    requires Books(env, l, p) && b in p.held + p.waiting + p.putOk + p.putErr
    ensures Readable(env.source, b)
  {
  }

  /** What is to be recorded about the source of a block. */
  ghost function SourceFailures(source: Source, b: BlockId): multiset<(BlockId, Template)> {
    if b !in source then multiset{(b, Template(ReadSourceBlock, "source block was not found"))}
    else if source[b].ReadError? then multiset{(b, Template(ReadSourceBlock, source[b].message))}
    else if source[b].decoded.Undecodable? then multiset{(b, Template(DecodeSourceBlock, source[b].decoded.message))}
    else multiset{}
  }

  lemma FailReadKeepsBooks(env: Env, l: Ledger, p: Parts, b: BlockId)
    requires Books(env, l, p) && b in p.reading && !Readable(env.source, b)
    ensures Books(env, FailRead(env.source, l, b), p.(reading := p.reading - multiset{b}))
    ensures FailRead(env.source, l, b).log.recorded == l.log.recorded + SourceFailures(env.source, b)
  {
    hide Books, Partitioned, Explained;
    PartIsOpen(env, l, p, b);
    var l', p' := FailRead(env.source, l, b), p.(reading := p.reading - multiset{b});
    assert Outstanding(p) == Outstanding(p') + multiset{b};
    assert Tagged(b, SourceTemplates(env.source, b)) == [(b, SourceTemplates(env.source, b)[0])];
    QuietFate(l.fate, b, ReadFailed);
    ReadingExplained(env.source, l, p, l', p', b);
    FinishKeepsBooks(env, l, p, l', p', b, ReadFailed);
  }

  lemma ClassesGrow(fate: map<BlockId, Fate>, b: BlockId, f: Fate)
    requires b !in fate
    ensures forall k :: |Class(fate[b := f], k)| == |Class(fate, k)| + if KindOf(f) == k then 1 else 0
  {
    forall k ensures |Class(fate[b := f], k)| == |Class(fate, k)| + if KindOf(f) == k then 1 else 0 {
      ClassGrows(fate, b, f, k);
    }
  }

  /** Decoding records what cannot be decoded, and remembers the children. */
  lemma DecodeLogs(source: Source, l: Ledger, b: BlockId)
    requires Readable(source, b)
    ensures var l' := Decode(source, l, b);
      && l' == l.(log := l'.log)
      && l'.log.recorded == l.log.recorded + SourceFailures(source, b)
      && l'.log.recorded == l.log.recorded + multiset(Tagged(b, SourceTemplates(source, b)))
      && l'.log.children == l.log.children[b := ChildrenOf(source, b)]
      && ChildrenOf(source, b) == if source[b].decoded.Children? then source[b].decoded.ids else []
  {
    var ts := SourceTemplates(source, b);
    assert Tagged(b, ts) == if ts == [] then [] else [(b, ts[0])];
    assert l.log.recorded + multiset{} == l.log.recorded;
  }

  /** A block that has been read is held, and its children are known. */
  lemma HoldingKeepsKnown(source: Source, l: Ledger, p: Parts, l': Ledger, p': Parts, b: BlockId)
    requires ChildrenKnown(source, l, p) && b in l.visited && p.reading[b] == 1 && Readable(source, b)
    requires p'.reading == p.reading - multiset{b} && l'.visited == l.visited
    requires l'.log.children == l.log.children[b := ChildrenOf(source, b)]
    ensures ChildrenKnown(source, l', p') && b !in l.log.children
  {
    hide ChildrenOf;
  }

  lemma HoldingKeepsFit(source: Source, mode: Mode, l: Ledger, p: Parts, l': Ledger, p': Parts, b: BlockId)
    requires FatesFit(source, mode, l, p) && Readable(source, b) && l'.fate == l.fate
    requires p' == p.(reading := p'.reading, held := p.held + multiset{b})
    ensures FatesFit(source, mode, l', p')
  {
    hide FateFits, Readable;
  }

  lemma HoldingKeepsCounts(env: Env, l: Ledger, p: Parts, l': Ledger, p': Parts, b: BlockId)
    requires Partitioned(l, p) && Metered(l, p) && AttemptsCounted(env.limits.mode, l, p) && b in p.reading
    requires p' == p.(reading := p.reading - multiset{b}, held := p.held + multiset{b}) && l' == l.(log := l'.log)
    ensures Partitioned(l', p') && Metered(l', p') && AttemptsCounted(env.limits.mode, l', p')
    ensures b in l.visited && p.reading[b] == 1
  {
    hide Class;
    PartNotFinished(l, p, b);
    assert Outstanding(p') == Outstanding(p);
  }

  lemma DecodeKeepsBooks(env: Env, l: Ledger, p: Parts, b: BlockId)
    requires Books(env, l, p) && b in p.reading && Readable(env.source, b)
    ensures Books(env, Decode(env.source, l, b), p.(reading := p.reading - multiset{b}, held := p.held + multiset{b}))
    ensures b !in l.log.children
    ensures Decode(env.source, l, b).log.recorded == l.log.recorded + SourceFailures(env.source, b)
    ensures Decode(env.source, l, b).log.children == l.log.children[b :=
      if env.source[b].decoded.Children? then env.source[b].decoded.ids else []]
  {
    hide Partitioned, Explained, Metered, AttemptsCounted, ChildrenKnown, FatesFit;
    DecodeLogs(env.source, l, b);
    hide Decode, SourceFailures, SourceTemplates, Readable;
    var l', p' := Decode(env.source, l, b), p.(reading := p.reading - multiset{b}, held := p.held + multiset{b});
    HoldingKeepsCounts(env, l, p, l', p', b);
    HoldingKeepsKnown(env.source, l, p, l', p', b);
    HoldingKeepsFit(env.source, env.limits.mode, l, p, l', p', b);
    ReadingExplained(env.source, l, p, l', p', b);
  }

  lemma SkipKeepsBooks(env: Env, l: Ledger, p: Parts, b: BlockId)
    requires Books(env, l, p) && b in p.held && env.limits.mode == WriteQueue.ReadBeforeWrite
    ensures Books(env, SkipPresent(l, b), p.(held := p.held - multiset{b}))
  {
    hide Books, Partitioned, Explained;
    HeldIsReadable(env, l, p, b);
    PartIsOpen(env, l, p, b);
    var l', p' := SkipPresent(l, b), p.(held := p.held - multiset{b});
    assert Outstanding(p) == Outstanding(p') + multiset{b};
    QuietFate(l.fate, b, Skipped);
    ExplainedAlike(env.source, l, p, l', p');
    FinishKeepsBooks(env, l, p, l', p', b, Skipped);
  }

  /** A failed fate accounts for exactly its own template. */
  lemma FateShareGrows(fate: map<BlockId, Fate>, b: BlockId, f: Fate, t: Template)
    requires b !in fate
    requires (exists m :: f == CheckFailed(m) && t == Template(CheckDestinationBlock, m))
          || (exists m :: f == WriteFailed(m) && t == Template(WriteDestinationBlock, m))
    ensures forall x, u :: FateShare(fate[b := f], x, u) == FateShare(fate, x, u) + if x == b && u == t then 1 else 0
  {
  }

  lemma FateExplained(source: Source, l: Ledger, p: Parts, l': Ledger, p': Parts, b: BlockId, f: Fate, t: Template)
    requires Explained(source, l, p) && b !in l.fate && l'.fate == l.fate[b := f]
    requires l'.visited == l.visited && p'.reading == p.reading
    requires l'.log.recorded == l.log.recorded + multiset{(b, t)}
    requires (exists m :: f == CheckFailed(m) && t == Template(CheckDestinationBlock, m))
          || (exists m :: f == WriteFailed(m) && t == Template(WriteDestinationBlock, m))
    ensures Explained(source, l', p')
  {
    FateShareGrows(l.fate, b, f, t);
    hide FateShare;
    forall x, u ensures l'.log.recorded[(x, u)] == SourceShare(source, l', p', x, u) + FateShare(l'.fate, x, u) {
      assert l.log.recorded[(x, u)] == SourceShare(source, l, p, x, u) + FateShare(l.fate, x, u);
    }
  }

  lemma FailCheckKeepsBooks(env: Env, l: Ledger, p: Parts, b: BlockId, m: string)
    requires Books(env, l, p) && b in p.held && env.limits.mode == WriteQueue.ReadBeforeWrite
    ensures Books(env, FailCheck(l, b, m), p.(held := p.held - multiset{b}))
  {
    hide Books, Partitioned, Explained;
    HeldIsReadable(env, l, p, b);
    PartIsOpen(env, l, p, b);
    var l', p' := FailCheck(l, b, m), p.(held := p.held - multiset{b});
    assert Outstanding(p) == Outstanding(p') + multiset{b};
    FateExplained(env.source, l, p, l', p', b, CheckFailed(m), Template(CheckDestinationBlock, m));
    FinishKeepsBooks(env, l, p, l', p', b, CheckFailed(m));
  }

  /** A job accepted for writing moves from its traversal worker to the waiting part. */
  lemma AcceptKeepsBooks(env: Env, l: Ledger, p: Parts, b: BlockId, uncounted: nat)
    requires Books(env, l, p) && b in p.held
    requires env.limits.mode == WriteQueue.BlindWrite ==> uncounted == p.uncounted + 1
    ensures Books(env, l, p.(held := p.held - multiset{b}, waiting := p.waiting + multiset{b}, uncounted := uncounted))
  {
    var p' := p.(held := p.held - multiset{b}, waiting := p.waiting + multiset{b}, uncounted := uncounted);
    assert Outstanding(p) == Outstanding(p');
    ExplainedAlike(env.source, l, p, l, p');
  }

  lemma CountAttemptKeepsBooks(env: Env, l: Ledger, p: Parts)
    requires Books(env, l, p) && p.uncounted > 0
    ensures Books(env, CountAttempt(l), p.(uncounted := p.uncounted - 1))
  {
    ExplainedAlike(env.source, l, p, CountAttempt(l), p.(uncounted := p.uncounted - 1));
  }

  /** The store answered for some waiting jobs: `ok` went in, `err` did not. What that
      did to the destination is no concern of the books. */
  lemma AnswerKeepsBooks(env: Env, l: Ledger, p: Parts, l': Ledger, ok: multiset<BlockId>, err: multiset<BlockId>)
    requires Books(env, l, p) && ok + err <= p.waiting
    requires l' == l.(blocks := l'.blocks, landed := l'.landed)
    ensures Books(env, l', p.(waiting := p.waiting - ok - err, putOk := p.putOk + ok, putErr := p.putErr + err))
  {
    var p' := p.(waiting := p.waiting - ok - err, putOk := p.putOk + ok, putErr := p.putErr + err);
    assert p.waiting == p'.waiting + ok + err;
    assert |p.waiting| == |p'.waiting| + |ok| + |err|;
    assert Outstanding(p) == Outstanding(p');
    ExplainedAlike(env.source, l, p, l', p');
  }

  lemma SettleOkKeepsBooks(env: Env, l: Ledger, p: Parts, c: Completion)
    requires Books(env, l, p) && c.error.None? && c.block in p.putOk
    requires c.countAsCopied <==> env.limits.mode == WriteQueue.ReadBeforeWrite
    ensures Books(env, Settle(l, c), p.(putOk := p.putOk - multiset{c.block}))
  {
    hide Books, Partitioned, Explained;
    HeldIsReadable(env, l, p, c.block);
    PartIsOpen(env, l, p, c.block);
    var l', p' := Settle(l, c), p.(putOk := p.putOk - multiset{c.block});
    assert Outstanding(p) == Outstanding(p') + multiset{c.block};
    QuietFate(l.fate, c.block, SettledFate(c));
    ExplainedAlike(env.source, l, p, l', p');
    FinishKeepsBooks(env, l, p, l', p', c.block, SettledFate(c));
  }

  lemma SettleErrKeepsBooks(env: Env, l: Ledger, p: Parts, c: Completion)
    requires Books(env, l, p) && c.error.Some? && c.block in p.putErr
    ensures Books(env, Settle(l, c), p.(putErr := p.putErr - multiset{c.block}))
  {
    hide Books, Partitioned, Explained;
    HeldIsReadable(env, l, p, c.block);
    PartIsOpen(env, l, p, c.block);
    var l', p' := Settle(l, c), p.(putErr := p.putErr - multiset{c.block});
    assert Outstanding(p) == Outstanding(p') + multiset{c.block};
    FateExplained(env.source, l, p, l', p', c.block, SettledFate(c), Template(WriteDestinationBlock, c.error.value));
    FinishKeepsBooks(env, l, p, l', p', c.block, SettledFate(c));
  }

  lemma AbandonKeepsBooks(env: Env, l: Ledger, p: Parts, b: BlockId)
    requires Books(env, l, p) && b in p.held
    ensures Books(env, Abandon(l, b), p.(held := p.held - multiset{b}))
  {
    hide Books, Partitioned, Explained;
    HeldIsReadable(env, l, p, b);
    PartIsOpen(env, l, p, b);
    var l', p' := Abandon(l, b), p.(held := p.held - multiset{b});
    assert Outstanding(p) == Outstanding(p') + multiset{b};
    QuietFate(l.fate, b, Abandoned);
    ExplainedAlike(env.source, l, p, l', p');
    FinishKeepsBooks(env, l, p, l', p', b, Abandoned);
  }

  function BlocksOf(jobs: seq<Job>): multiset<BlockId> {
    if jobs == [] then multiset{} else multiset{jobs[0].block} + BlocksOf(jobs[1..])
  }

  lemma {:induction false} DiscardFrame(l: Ledger, jobs: seq<Job>)
    ensures Discard(l, jobs) == l.(fate := Discard(l, jobs).fate)
    ensures forall b :: b in Discard(l, jobs).fate ==>
      Discard(l, jobs).fate[b].Discarded? || (b in l.fate && Discard(l, jobs).fate[b] == l.fate[b])
    decreases |jobs|
  {
    if jobs != [] { DiscardFrame(l.(fate := l.fate[jobs[0].block := Discarded]), jobs[1..]); }
  }

  lemma DiscardOneKeepsBooks(env: Env, l: Ledger, p: Parts, b: BlockId)
    requires Books(env, l, p) && b in p.waiting
    ensures Books(env, l.(fate := l.fate[b := Discarded]), p.(waiting := p.waiting - multiset{b}))
  {
    hide Books, Partitioned, Explained;
    HeldIsReadable(env, l, p, b);
    PartIsOpen(env, l, p, b);
    var l', p' := l.(fate := l.fate[b := Discarded]), p.(waiting := p.waiting - multiset{b});
    assert Outstanding(p) == Outstanding(p') + multiset{b};
    QuietFate(l.fate, b, Discarded);
    ExplainedAlike(env.source, l, p, l', p');
    FinishKeepsBooks(env, l, p, l', p', b, Discarded);
  }

  lemma {:induction false} DiscardKeepsBooks(env: Env, l: Ledger, p: Parts, jobs: seq<Job>)
    requires Books(env, l, p) && BlocksOf(jobs) <= p.waiting
    ensures Books(env, Discard(l, jobs), p.(waiting := p.waiting - BlocksOf(jobs)))
    decreases |jobs|
  {
    hide Books;
    if jobs == [] {
      assert p.waiting - multiset{} == p.waiting;
    } else {
      var b := jobs[0].block;
      assert b in BlocksOf(jobs);
      var l', p' := l.(fate := l.fate[b := Discarded]), p.(waiting := p.waiting - multiset{b});
      DiscardOneKeepsBooks(env, l, p, b);
      DiscardKeepsBooks(env, l', p', jobs[1..]);
      assert p'.waiting - BlocksOf(jobs[1..]) == p.waiting - BlocksOf(jobs);
    }
  }

  lemma FailStoreKeepsBooks(env: Env, l: Ledger, p: Parts, m: string)
    requires Books(env, l, p)
    ensures Books(env, FailStore(l, env.roots, m), p)
  {
    ExplainedAlike(env.source, l, p, FailStore(l, env.roots, m), p);
  }
}
