/** The books of the multi-worker copy: which thread accounts for which visited block, and
    that every step of every thread keeps the books straight. */
module CopyAccounts {
  import opened Options
  import opened BlockGraph
  import opened Tallies
  import opened Ledger
  import opened Destination
  import opened CopyProtocol
  import opened CopyControl
  import opened CopyProgress
  import WriteQueue

  // -------------------------------------------------------------- shares of a thread

  type Slot = Option<BlockId>

  const NoBlock: Slot := None

  function Bag(slot: Slot): multiset<BlockId> {
    if slot.Some? then multiset{slot.value} else multiset{}
  }

  function ReadingSlot(pc: TraversalPc): Slot {
    match pc
    case Reading(item) => Some(item.block)
    case Decoding(item) => Some(item.block)
    case _ => NoBlock
  }

  function HeldSlot(pc: TraversalPc): Slot {
    match pc
    case Spreading(item) => Some(item.block)
    case Checking(b) => Some(b)
    case Skipping(b) => Some(b)
    case FailingCheck(b, _) => Some(b)
    case Submitting(b) => Some(b)
    case _ => NoBlock
  }

  function ReadingOf(pc: TraversalPc): multiset<BlockId> { Bag(ReadingSlot(pc)) }

  function HeldOf(pc: TraversalPc): multiset<BlockId> { Bag(HeldSlot(pc)) }

  function UnreadOf(pc: TraversalPc): nat { if pc.Reading? then 1 else 0 }

  function UncountedOf(pc: TraversalPc): nat { if pc.CountingAttempt? then 1 else 0 }

  function BlocksDone(done: seq<Completion>, failed: bool): multiset<BlockId> {
    if done == [] then multiset{}
    else (if done[0].error.Some? == failed then multiset{done[0].block} else multiset{}) + BlocksDone(done[1..], failed)
  }

  function UnputOf(pc: WriterPc): multiset<BlockId> {
    match pc
    case Publishing(jobs) => BlocksOf(jobs)
    case Putting(jobs, done) => if |done| <= |jobs| then BlocksOf(jobs[|done|..]) else multiset{}
    case _ => multiset{}
  }

  function PutOkOf(pc: WriterPc): multiset<BlockId> {
    match pc
    case Putting(_, done) => BlocksDone(done, false)
    case Recording(_, done, next) => if next <= |done| then BlocksDone(done[next..], false) else multiset{}
    case _ => multiset{}
  }

  function PutErrOf(pc: WriterPc): multiset<BlockId> {
    match pc
    case Putting(_, done) => BlocksDone(done, true)
    case Recording(_, done, next) => if next <= |done| then BlocksDone(done[next..], true) else multiset{}
    case _ => multiset{}
  }

  function PartsOf(queue: seq<Job>, workers: seq<TraversalPc>, writers: seq<WriterPc>): Parts {
    Parts(Gather(workers, ReadingOf), Gather(workers, HeldOf), BlocksOf(queue) + Gather(writers, UnputOf),
          Gather(writers, PutOkOf), Gather(writers, PutErrOf), Tally(workers, UnreadOf), Tally(workers, UncountedOf))
  }

  function Shares(s: State): Parts { PartsOf(s.write.queue, s.workers, s.writers) }

  // ----------------------------------------------------------------- invariants

  predicate ModeFits(mode: Mode, pc: TraversalPc) {
    && (pc.Checking? || pc.Skipping? || pc.FailingCheck? ==> mode == WriteQueue.ReadBeforeWrite)
    && (pc.CountingAttempt? ==> mode == WriteQueue.BlindWrite)
  }

  predicate GenuineJob(env: Env, job: Job) {
    Readable(env.source, job.block) && job == JobFor(env, job.block)
  }

  ghost predicate JobsGenuine(env: Env, jobs: seq<Job>) {
    forall j :: 0 <= j < |jobs| ==> GenuineJob(env, jobs[j])
  }

  ghost predicate Honest(env: Env, s: State) {
    && JobsGenuine(env, s.write.queue)
    && (forall w :: 0 <= w < |s.writers| ==> JobsGenuine(env, LoadOf(s.writers[w])))
    && (forall i :: 0 <= i < |s.workers| ==> ModeFits(env.limits.mode, s.workers[i]))
  }

  ghost predicate Accounts(env: Env, s: State) {
    Books(env, s.ledger, Shares(s)) && Honest(env, s)
  }

  lemma InitialAccounts(env: Env, workerCount: nat)
    ensures Accounts(env, Initial(env, workerCount))
  {
    InitialShares(env, workerCount);
    OpenedBooks(env);
    hide Books, Shares, NoParts;
  }

  lemma InitialShares(env: Env, workerCount: nat)
    ensures Shares(Initial(env, workerCount)) == NoParts
  {
    var s := Initial(env, workerCount);
    GatherEmpty(s.workers, ReadingOf);
    GatherEmpty(s.workers, HeldOf);
    GatherEmpty(s.writers, UnputOf);
    GatherEmpty(s.writers, PutOkOf);
    GatherEmpty(s.writers, PutErrOf);
    TallyZero(s.workers, UnreadOf);
    TallyZero(s.workers, UncountedOf);
    hide Gather, Tally;
  }

  // -------------------------------------------------------------- moving the shares

  /** How a part changes when one thread's slot does. */
  predicate SlotMoved(before: multiset<BlockId>, after: multiset<BlockId>, x: Slot, y: Slot) {
    && (x == y ==> after == before)
    && (x.None? && y.Some? ==> after == before + multiset{y.value})
    && (x.Some? && y.None? ==> x.value in before && after == before - multiset{x.value})
  }

  lemma SlotMoves(workers: seq<TraversalPc>, i: nat, pc: TraversalPc,
                  f: TraversalPc -> multiset<BlockId>, x: Slot, y: Slot)
    requires i < |workers| && f(workers[i]) == Bag(x) && f(pc) == Bag(y)
    ensures SlotMoved(Gather(workers, f), Gather(workers[i := pc], f), x, y)
  {
    var before, after := Gather(workers, f), Gather(workers[i := pc], f);
    GatherUpdate(workers, i, pc, f);
    GatherHolds(workers, i, f);
    if x == y {
      CancelBag(before, after, Bag(x));
    } else if y.None? {
      assert x.value in Bag(x);
      RemoveBag(before, after, Bag(x));
    }
  }

  /** One traversal worker moves: only its own share changes. */
  lemma WorkerShare(queue: seq<Job>, workers: seq<TraversalPc>, writers: seq<WriterPc>, i: nat, pc: TraversalPc)
    requires i < |workers|
    ensures var p, p' := PartsOf(queue, workers, writers), PartsOf(queue, workers[i := pc], writers);
      && SlotMoved(p.reading, p'.reading, ReadingSlot(workers[i]), ReadingSlot(pc))
      && SlotMoved(p.held, p'.held, HeldSlot(workers[i]), HeldSlot(pc))
      && p'.unread + UnreadOf(workers[i]) == p.unread + UnreadOf(pc)
      && p'.uncounted + UncountedOf(workers[i]) == p.uncounted + UncountedOf(pc)
      && p' == p.(reading := p'.reading, held := p'.held, unread := p'.unread, uncounted := p'.uncounted)
      && UnreadOf(workers[i]) <= p.unread && UncountedOf(workers[i]) <= p.uncounted
  {
    SlotMoves(workers, i, pc, ReadingOf, ReadingSlot(workers[i]), ReadingSlot(pc));
    SlotMoves(workers, i, pc, HeldOf, HeldSlot(workers[i]), HeldSlot(pc));
    TallyUpdate(workers, i, pc, UnreadOf);
    TallyUpdate(workers, i, pc, UncountedOf);
    TallyHolds(workers, i, UnreadOf);
    TallyHolds(workers, i, UncountedOf);
  }

  lemma {:induction false} BlocksOfConcat(a: seq<Job>, b: seq<Job>)
    ensures BlocksOf(a + b) == BlocksOf(a) + BlocksOf(b)
  {
    if a == [] {
      assert a + b == b;
    } else {
      assert (a + b)[1..] == a[1..] + b;
      BlocksOfConcat(a[1..], b);
    }
  }

  // ------------------------------------------------------- traversal steps keep them

  /** A move that touches no share. */
  lemma QuietMoveKeepsBooks(env: Env, s: State, s': State, i: nat, pc: TraversalPc)
    requires Books(env, s.ledger, Shares(s)) && i < |s.workers|
    requires s'.ledger == s.ledger && s'.workers == s.workers[i := pc] && s'.writers == s.writers
    requires s'.write.queue == s.write.queue
    requires ReadingSlot(pc) == ReadingSlot(s.workers[i]) && HeldSlot(pc) == HeldSlot(s.workers[i])
    requires UnreadOf(pc) == UnreadOf(s.workers[i]) && UncountedOf(pc) == UncountedOf(s.workers[i])
    ensures Books(env, s'.ledger, Shares(s'))
  {
    hide Books, PartsOf, Gather, Tally, BlocksOf;
    WorkerShare(s.write.queue, s.workers, s.writers, i, pc);
    var p, p' := Shares(s), Shares(s');
    assert p' == p;
  }

  lemma NotingKeepsBooks(env: Env, s: State, i: nat, item: Item)
    requires Books(env, s.ledger, Shares(s)) && i < |s.workers| && s.workers[i] == Noting(item)
    ensures var s' := Move(s.(ledger := NoteAt(s.ledger, item.root, item.block)), i, Visiting(item));
      Books(env, s'.ledger, Shares(s'))
  {
    hide Books, PartsOf, Gather, Tally, BlocksOf;
    QuietMoveKeepsBooks(env, s, Move(s, i, Visiting(item)), i, Visiting(item));
    NoteKeepsBooks(env, s.ledger, Shares(Move(s, i, Visiting(item))), item.root, item.block);
  }

  lemma VisitingKeepsBooks(env: Env, s: State, i: nat, item: Item)
    requires Books(env, s.ledger, Shares(s)) && i < |s.workers| && s.workers[i] == Visiting(item)
    ensures var s' := VisitStep(s, i, item); Books(env, s'.ledger, Shares(s'))
  {
    hide Books, PartsOf, Gather, Tally, BlocksOf;
    var s' := VisitStep(s, i, item);
    if item.block in s.ledger.visited {
      QuietMoveKeepsBooks(env, s, s', i, Finishing);
    } else {
      VisitKeepsBooks(env, s.ledger, Shares(s), item.block);
      WorkerShare(s.write.queue, s.workers, s.writers, i, Reading(item));
      var p, p' := Shares(s), Shares(s');
      assert p' == p.(reading := p.reading + multiset{item.block}, unread := p.unread + 1);
    }
  }

  lemma ReadingWellKeepsBooks(env: Env, s: State, i: nat, item: Item)
    requires Books(env, s.ledger, Shares(s)) && i < |s.workers| && s.workers[i] == Reading(item)
    requires Readable(env.source, item.block)
    ensures var s' := ReadStep(env, s, i, item); Books(env, s'.ledger, Shares(s'))
  {
    hide Books, PartsOf, Gather, Tally, BlocksOf;
    var s' := ReadStep(env, s, i, item);
    WorkerShare(s.write.queue, s.workers, s.writers, i, Decoding(item));
    CountReadKeepsBooks(env, s.ledger, Shares(s));
    assert Shares(s') == Shares(s).(unread := Shares(s).unread - 1);
  }

  lemma ReadingBadlyKeepsBooks(env: Env, s: State, i: nat, item: Item)
    requires Books(env, s.ledger, Shares(s)) && i < |s.workers| && s.workers[i] == Reading(item)
    requires !Readable(env.source, item.block)
    ensures var s' := ReadStep(env, s, i, item); Books(env, s'.ledger, Shares(s'))
  {
    hide Books, PartsOf, Gather, Tally, BlocksOf, FailRead;
    var s' := ReadStep(env, s, i, item);
    WorkerShare(s.write.queue, s.workers, s.writers, i, Finishing);
    var p := Shares(s);
    CountReadKeepsBooks(env, s.ledger, p);
    FailReadKeepsBooks(env, CountRead(s.ledger), p.(unread := p.unread - 1), item.block);
    assert Shares(s') == p.(unread := p.unread - 1, reading := p.reading - multiset{item.block});
  }

  lemma DecodingKeepsBooks(env: Env, s: State, i: nat, item: Item)
    requires Books(env, s.ledger, Shares(s)) && i < |s.workers| && s.workers[i] == Decoding(item)
    requires Readable(env.source, item.block)
    ensures var s' := Move(s.(ledger := Decode(env.source, s.ledger, item.block)), i, Spreading(item));
      Books(env, s'.ledger, Shares(s'))
    ensures item.block !in s.ledger.log.children
  {
    hide Books, PartsOf, Gather, Tally, BlocksOf;
    var s', b := Move(s.(ledger := Decode(env.source, s.ledger, item.block)), i, Spreading(item)), item.block;
    WorkerShare(s.write.queue, s.workers, s.writers, i, Spreading(item));
    var p, p' := Shares(s), Shares(s');
    DecodeKeepsBooks(env, s.ledger, p, b);
    assert p' == p.(reading := p.reading - multiset{b}, held := p.held + multiset{b});
  }

  /** A worker gives up the block it holds. */
  lemma DropShare(env: Env, s: State, i: nat, b: BlockId)
    requires i < |s.workers| && HeldSlot(s.workers[i]) == Some(b)
    ensures b in Shares(s).held
    ensures Shares(Move(s, i, Finishing)) == Shares(s).(held := Shares(s).held - multiset{b})
  {
    hide PartsOf, Gather, Tally, BlocksOf;
    WorkerShare(s.write.queue, s.workers, s.writers, i, Finishing);
    var p, p' := Shares(s), Shares(Move(s, i, Finishing));
  }

  lemma SubmittingKeepsBooks(env: Env, s: State, i: nat, b: BlockId)
    requires Books(env, s.ledger, Shares(s)) && i < |s.workers| && s.workers[i] == Submitting(b)
    requires Readable(env.source, b)
    requires WriteQueue.Admit(env.limits, s.write, JobFor(env, b), s.stop) != WriteQueue.MustWait
    ensures var s' := SubmitStep(env, s, i, b); Books(env, s'.ledger, Shares(s'))
  {
    hide Books, PartsOf, Gather, Tally, BlocksOf;
    var s' := SubmitStep(env, s, i, b);
    if WriteQueue.Admit(env.limits, s.write, JobFor(env, b), s.stop) == WriteQueue.Refused {
      DropShare(env, s, i, b);
      AbandonKeepsBooks(env, s.ledger, Shares(s), b);
    } else {
      WorkerShare(s.write.queue, s.workers, s.writers, i, s'.workers[i]);
      QueueGrows(s.write.queue, s'.workers, s.writers, JobFor(env, b));
      var p, p' := Shares(s), Shares(s');
      AcceptKeepsBooks(env, s.ledger, p, b, p'.uncounted);
      assert p' == p.(held := p.held - multiset{b}, waiting := p.waiting + multiset{b}, uncounted := p'.uncounted);
    }
  }

  lemma QueueGrows(queue: seq<Job>, workers: seq<TraversalPc>, writers: seq<WriterPc>, job: Job)
    ensures PartsOf(queue + [job], workers, writers)
         == PartsOf(queue, workers, writers).(waiting := PartsOf(queue, workers, writers).waiting + multiset{job.block})
  {
    hide Gather, Tally;
    BlocksOfConcat(queue, [job]);
    assert [job][1..] == [];
    assert BlocksOf([job]) == multiset{job.block} + BlocksOf([job][1..]);
    var rest := Gather(writers, UnputOf);
    assert (BlocksOf(queue) + multiset{job.block}) + rest == (BlocksOf(queue) + rest) + multiset{job.block};
  }

  lemma CountingKeepsBooks(env: Env, s: State, i: nat)
    requires Books(env, s.ledger, Shares(s)) && i < |s.workers| && s.workers[i] == CountingAttempt
    ensures var s' := Move(s.(ledger := CountAttempt(s.ledger)), i, Finishing); Books(env, s'.ledger, Shares(s'))
  {
    hide Books, PartsOf, Gather, Tally, BlocksOf;
    WorkerShare(s.write.queue, s.workers, s.writers, i, Finishing);
    var p, p' := Shares(s), Shares(Move(s, i, Finishing));
    CountAttemptKeepsBooks(env, s.ledger, p);
    assert p' == p.(uncounted := p.uncounted - 1);
  }

  lemma CheckingKeepsBooks(env: Env, s: State, i: nat, b: BlockId, sawStop: bool, check: CheckAnswer)
    requires Books(env, s.ledger, Shares(s)) && i < |s.workers| && s.workers[i] == Checking(b)
    ensures var s' := CheckStep(s, i, b, sawStop, check); Books(env, s'.ledger, Shares(s'))
  {
    hide Books, Shares;
    var s' := CheckStep(s, i, b, sawStop, check);
    if sawStop {
      DropShare(env, s, i, b);
      AbandonKeepsBooks(env, s.ledger, Shares(s), b);
      SharesIgnoreLedger(Move(s, i, Finishing), s');
    } else {
      QuietMoveKeepsBooks(env, s, s', i, s'.workers[i]);
    }
  }

  lemma SkippingKeepsBooks(env: Env, s: State, i: nat, b: BlockId)
    requires Books(env, s.ledger, Shares(s)) && i < |s.workers| && s.workers[i] == Skipping(b)
    requires env.limits.mode == WriteQueue.ReadBeforeWrite
    ensures Books(env, SkipPresent(s.ledger, b), Shares(Move(s, i, Finishing)))
  {
    hide Books, Shares;
    DropShare(env, s, i, b);
    SkipKeepsBooks(env, s.ledger, Shares(s), b);
  }

  lemma FailingCheckKeepsBooks(env: Env, s: State, i: nat, b: BlockId, m: string)
    requires Books(env, s.ledger, Shares(s)) && i < |s.workers| && s.workers[i] == FailingCheck(b, m)
    requires env.limits.mode == WriteQueue.ReadBeforeWrite
    ensures Books(env, FailCheck(s.ledger, b, m), Shares(Move(s, i, Finishing)))
  {
    hide Books, Shares;
    DropShare(env, s, i, b);
    FailCheckKeepsBooks(env, s.ledger, Shares(s), b, m);
  }

  /** Popping, queueing children and dropping the guard touch no block's account. */
  lemma QuietStepKeepsBooks(env: Env, s: State, i: nat, sawStop: bool, check: CheckAnswer)
    requires Books(env, s.ledger, Shares(s)) && CanTraverse(env, s, i, sawStop, check)
    requires s.workers[i].Idle? || s.workers[i].Spreading? || s.workers[i].Finishing?
    ensures var s' := TraverseStep(env, s, i, sawStop, check); Books(env, s'.ledger, Shares(s'))
  {
    hide Books, Shares, VisitStep, ReadStep, CheckStep, SubmitStep;
    var s' := TraverseStep(env, s, i, sawStop, check);
    QuietMoveKeepsBooks(env, s, s', i, s'.workers[i]);
  }

  lemma EarlyStepKeepsBooks(env: Env, s: State, i: nat, sawStop: bool, check: CheckAnswer)
    requires Books(env, s.ledger, Shares(s)) && CanTraverse(env, s, i, sawStop, check)
    requires HandReadable(env.source, s.workers[i])
    requires s.workers[i].Noting? || s.workers[i].Visiting? || s.workers[i].Reading? || s.workers[i].Decoding?
    ensures var s' := TraverseStep(env, s, i, sawStop, check); Books(env, s'.ledger, Shares(s'))
  {
    hide Books, Shares, VisitStep, ReadStep;
    match s.workers[i] {
      case Noting(item) => NotingKeepsBooks(env, s, i, item);
      case Visiting(item) => VisitingKeepsBooks(env, s, i, item);
      case Reading(item) =>
        if Readable(env.source, item.block) {
          ReadingWellKeepsBooks(env, s, i, item);
        } else {
          ReadingBadlyKeepsBooks(env, s, i, item);
        }
      case Decoding(item) => DecodingKeepsBooks(env, s, i, item);
    }
  }

  lemma LateStepKeepsBooks(env: Env, s: State, i: nat, sawStop: bool, check: CheckAnswer)
    requires Books(env, s.ledger, Shares(s)) && CanTraverse(env, s, i, sawStop, check)
    requires ModeFits(env.limits.mode, s.workers[i])
    requires s.workers[i].Skipping? || s.workers[i].FailingCheck? || s.workers[i].CountingAttempt?
    ensures var s' := TraverseStep(env, s, i, sawStop, check); Books(env, s'.ledger, Shares(s'))
  {
    hide Books, Shares;
    var s' := TraverseStep(env, s, i, sawStop, check);
    match s.workers[i] {
      case Skipping(b) => SkippingKeepsBooks(env, s, i, b);
      case FailingCheck(b, m) => FailingCheckKeepsBooks(env, s, i, b, m);
      case CountingAttempt => CountingKeepsBooks(env, s, i);
    }
    SharesIgnoreLedger(Move(s, i, Finishing), s');
  }

  lemma TraverseKeepsBooks(env: Env, s: State, i: nat, sawStop: bool, check: CheckAnswer)
    requires Accounts(env, s) && Within(env, s) && CanTraverse(env, s, i, sawStop, check)
    ensures var s' := TraverseStep(env, s, i, sawStop, check); Books(env, s'.ledger, Shares(s'))
  {
    HandFacts(env, s, i);
    hide Books, Honest, Within, Shares, PopStep, VisitStep, ReadStep, SpreadStep, CheckStep, SubmitStep;
    hide ModeFits, HandReadable;
    match s.workers[i] {
      case Checking(b) => CheckingKeepsBooks(env, s, i, b, sawStop, check);
      case Submitting(b) => SubmittingKeepsBooks(env, s, i, b);
      case Idle => QuietStepKeepsBooks(env, s, i, sawStop, check);
      case Spreading(_) => QuietStepKeepsBooks(env, s, i, sawStop, check);
      case Finishing => QuietStepKeepsBooks(env, s, i, sawStop, check);
      case Skipping(_) => LateStepKeepsBooks(env, s, i, sawStop, check);
      case FailingCheck(_, _) => LateStepKeepsBooks(env, s, i, sawStop, check);
      case CountingAttempt => LateStepKeepsBooks(env, s, i, sawStop, check);
      case Done =>
      case _ => EarlyStepKeepsBooks(env, s, i, sawStop, check);
    }
  }

  lemma HandFacts(env: Env, s: State, i: nat)
    requires Honest(env, s) && Within(env, s) && i < |s.workers|
    ensures HandReadable(env.source, s.workers[i]) && ModeFits(env.limits.mode, s.workers[i])
  {
    hide QueueWithin, HandsWithin, JobsGenuine;
  }

  lemma SharesIgnoreLedger(s: State, s': State)
    requires s'.write.queue == s.write.queue && s'.workers == s.workers && s'.writers == s.writers
    ensures Shares(s') == Shares(s)
  {
  }

  lemma TraverseKeepsHonest(env: Env, s: State, i: nat, sawStop: bool, check: CheckAnswer)
    requires Honest(env, s) && CanTraverse(env, s, i, sawStop, check)
    ensures Honest(env, TraverseStep(env, s, i, sawStop, check))
  {
    var s' := TraverseStep(env, s, i, sawStop, check);
    assert ModeFits(env.limits.mode, s.workers[i]);
    assert ModeFits(env.limits.mode, s'.workers[i]);
    TraverseMovesOne(env, s, i, sawStop, check);
  }

  // ------------------------------------------------------------ write steps keep them

  lemma WriterShare(queue: seq<Job>, workers: seq<TraversalPc>, writers: seq<WriterPc>, w: nat, pc: WriterPc)
    requires w < |writers|
    ensures var p, p' := PartsOf(queue, workers, writers), PartsOf(queue, workers, writers[w := pc]);
      && p'.waiting + UnputOf(writers[w]) == p.waiting + UnputOf(pc)
      && p'.putOk + PutOkOf(writers[w]) == p.putOk + PutOkOf(pc)
      && p'.putErr + PutErrOf(writers[w]) == p.putErr + PutErrOf(pc)
      && p' == p.(waiting := p'.waiting, putOk := p'.putOk, putErr := p'.putErr)
      && UnputOf(writers[w]) <= p.waiting && PutOkOf(writers[w]) <= p.putOk && PutErrOf(writers[w]) <= p.putErr
  {
    GatherUpdate(writers, w, pc, UnputOf);
    GatherUpdate(writers, w, pc, PutOkOf);
    GatherUpdate(writers, w, pc, PutErrOf);
    GatherHolds(writers, w, UnputOf);
    GatherHolds(writers, w, PutOkOf);
    GatherHolds(writers, w, PutErrOf);
    var q, a, b := BlocksOf(queue), Gather(writers, UnputOf), Gather(writers[w := pc], UnputOf);
    assert (q + b) + UnputOf(writers[w]) == q + (b + UnputOf(writers[w])) == q + (a + UnputOf(pc)) ==
      (q + a) + UnputOf(pc);
  }

  lemma QuietShare(queue: seq<Job>, workers: seq<TraversalPc>, writers: seq<WriterPc>, w: nat, pc: WriterPc)
    requires w < |writers|
    requires UnputOf(pc) == UnputOf(writers[w]) && PutOkOf(pc) == PutOkOf(writers[w])
    requires PutErrOf(pc) == PutErrOf(writers[w])
    ensures PartsOf(queue, workers, writers[w := pc]) == PartsOf(queue, workers, writers)
  {
    var p, p' := PartsOf(queue, workers, writers), PartsOf(queue, workers, writers[w := pc]);
    WriterShare(queue, workers, writers, w, pc);
    hide PartsOf;
    CancelBag(p.waiting, p'.waiting, UnputOf(pc));
    CancelBag(p.putOk, p'.putOk, PutOkOf(pc));
    CancelBag(p.putErr, p'.putErr, PutErrOf(pc));
  }

  lemma DropBags(before: multiset<BlockId>, after: multiset<BlockId>, left: multiset<BlockId>, ok: multiset<BlockId>,
                 err: multiset<BlockId>)
    requires after + (left + ok + err) == before + left && left + ok + err <= before
    ensures after == before - ok - err && ok + err <= before
  {
    forall b ensures after[b] + ok[b] + err[b] == before[b] {
      assert (after + (left + ok + err))[b] == (before + left)[b];
    }
  }

  lemma AddBag(before: multiset<BlockId>, after: multiset<BlockId>, had: multiset<BlockId>, more: multiset<BlockId>)
    requires after + had == before + (had + more)
    ensures after == before + more
  {
    forall b ensures after[b] == before[b] + more[b] {
      assert (after + had)[b] == (before + (had + more))[b];
    }
  }

  /** The store answered a writer for some of its jobs. */
  lemma AnswerShare(queue: seq<Job>, workers: seq<TraversalPc>, writers: seq<WriterPc>, w: nat, pc: WriterPc,
                    ok: multiset<BlockId>, err: multiset<BlockId>)
    requires w < |writers| && UnputOf(writers[w]) == UnputOf(pc) + ok + err
    requires PutOkOf(pc) == PutOkOf(writers[w]) + ok && PutErrOf(pc) == PutErrOf(writers[w]) + err
    ensures var p, p' := PartsOf(queue, workers, writers), PartsOf(queue, workers, writers[w := pc]);
      && ok + err <= p.waiting
      && p' == p.(waiting := p.waiting - ok - err, putOk := p.putOk + ok, putErr := p.putErr + err)
  {
    var p, p' := PartsOf(queue, workers, writers), PartsOf(queue, workers, writers[w := pc]);
    WriterShare(queue, workers, writers, w, pc);
    hide PartsOf;
    DropBags(p.waiting, p'.waiting, UnputOf(pc), ok, err);
    AddBag(p.putOk, p'.putOk, PutOkOf(writers[w]), ok);
    AddBag(p.putErr, p'.putErr, PutErrOf(writers[w]), err);
  }

  lemma TakeOne(before: multiset<BlockId>, after: multiset<BlockId>, left: multiset<BlockId>, b: BlockId)
    requires after + (multiset{b} + left) == before + left && multiset{b} + left <= before
    ensures b in before && after == before - multiset{b}
  {
    forall x ensures after[x] + multiset{b}[x] == before[x] {
      assert (after + (multiset{b} + left))[x] == (before + left)[x];
    }
    assert (multiset{b} + left)[b] >= 1;
  }

  /** A writer recorded one completion. */
  lemma SettleShare(queue: seq<Job>, workers: seq<TraversalPc>, writers: seq<WriterPc>, w: nat, pc: WriterPc,
                    c: Completion)
    requires w < |writers| && UnputOf(writers[w]) == UnputOf(pc)
    requires c.error.None? ==>
      PutOkOf(writers[w]) == multiset{c.block} + PutOkOf(pc) && PutErrOf(writers[w]) == PutErrOf(pc)
    requires c.error.Some? ==>
      PutErrOf(writers[w]) == multiset{c.block} + PutErrOf(pc) && PutOkOf(writers[w]) == PutOkOf(pc)
    ensures var p, p' := PartsOf(queue, workers, writers), PartsOf(queue, workers, writers[w := pc]);
      && (c.error.None? ==> c.block in p.putOk && p' == p.(putOk := p.putOk - multiset{c.block}))
      && (c.error.Some? ==> c.block in p.putErr && p' == p.(putErr := p.putErr - multiset{c.block}))
  {
    var p, p' := PartsOf(queue, workers, writers), PartsOf(queue, workers, writers[w := pc]);
    WriterShare(queue, workers, writers, w, pc);
    hide PartsOf;
    CancelBag(p.waiting, p'.waiting, UnputOf(pc));
    if c.error.None? {
      TakeOne(p.putOk, p'.putOk, PutOkOf(pc), c.block);
      CancelBag(p.putErr, p'.putErr, PutErrOf(pc));
    } else {
      TakeOne(p.putErr, p'.putErr, PutErrOf(pc), c.block);
      CancelBag(p.putOk, p'.putOk, PutOkOf(pc));
    }
  }

  /** Taking a batch moves its blocks from the queue to the writer: the account is the same. */
  lemma TakeShare(queue: seq<Job>, workers: seq<TraversalPc>, writers: seq<WriterPc>, w: nat, k: nat)
    requires w < |writers| && writers[w] == Seeking && k <= |queue|
    ensures PartsOf(queue[k..], workers, writers[w := Publishing(queue[..k])]) == PartsOf(queue, workers, writers)
  {
    var batch, rest := queue[..k], queue[k..];
    assert queue == batch + rest;
    BlocksOfConcat(batch, rest);
    var pc := Publishing(batch);
    GatherUpdate(writers, w, pc, UnputOf);
    GatherUpdate(writers, w, pc, PutOkOf);
    GatherUpdate(writers, w, pc, PutErrOf);
    var a, a' := Gather(writers, UnputOf), Gather(writers[w := pc], UnputOf);
    assert a' == a' + UnputOf(writers[w]) == a + BlocksOf(batch);
    assert BlocksOf(rest) + (a + BlocksOf(batch)) == (BlocksOf(batch) + BlocksOf(rest)) + a;
    CancelBag(Gather(writers, PutOkOf), Gather(writers[w := pc], PutOkOf), multiset{});
    CancelBag(Gather(writers, PutErrOf), Gather(writers[w := pc], PutErrOf), multiset{});
  }

  lemma {:induction false} CompletionsDone(jobs: seq<Job>, error: Option<string>)
    ensures BlocksDone(Completions(jobs, error), false) == if error.None? then BlocksOf(jobs) else multiset{}
    ensures BlocksDone(Completions(jobs, error), true) == if error.Some? then BlocksOf(jobs) else multiset{}
  {
    if jobs != [] {
      assert Completions(jobs, error)[1..] == Completions(jobs[1..], error);
      CompletionsDone(jobs[1..], error);
    }
  }

  lemma {:induction false} DoneGrows(done: seq<Completion>, c: Completion, failed: bool)
    ensures BlocksDone(done + [c], failed)
         == BlocksDone(done, failed) + if c.error.Some? == failed then multiset{c.block} else multiset{}
  {
    if done == [] {
      assert done + [c] == [c] && [c][1..] == [];
    } else {
      assert (done + [c])[1..] == done[1..] + [c];
      DoneGrows(done[1..], c, failed);
    }
  }

  lemma DoneShrinks(done: seq<Completion>, next: nat, failed: bool)
    requires next < |done|
    ensures BlocksDone(done[next..], failed)
         == (if done[next].error.Some? == failed then multiset{done[next].block} else multiset{}) +
           BlocksDone(done[next + 1..], failed)
    ensures next + 1 == |done| ==> BlocksDone(done[next + 1..], failed) == multiset{}
  {
    assert done[next..][1..] == done[next + 1..] && done[next..][0] == done[next];
  }

  lemma PublishKeepsBooks(env: Env, s: State, w: nat, jobs: seq<Job>, answer: WriteAnswer)
    requires Books(env, s.ledger, Shares(s)) && w < |s.writers| && s.writers[w] == Publishing(jobs)
    requires OffersBatch(jobs, s.capability) ==> BatchAllowed(env, jobs, answer)
    ensures var s' := PublishStep(env, s, w, jobs, answer); Books(env, s'.ledger, Shares(s'))
  {
    hide Books, PartsOf, Gather, Tally;
    if !OffersBatch(jobs, s.capability) || answer.BatchUnsupported? {
      hide BatchAllowed;
      assert jobs[0..] == jobs;
      QuietShare(s.write.queue, s.workers, s.writers, w, Putting(jobs, []));
    } else if answer.BatchOk? {
      LandAllFrame(env, s.ledger, jobs);
      BatchKeepsBooks(env, s, w, jobs, None, LandAll(env, s.ledger, jobs));
    } else {
      LandSomeFrame(env, s.ledger, jobs, answer.landed);
      BatchKeepsBooks(env, s, w, jobs, Some(answer.message), LandSome(env, s.ledger, jobs, answer.landed));
    }
  }

  /** A batch call answers for all its jobs at once. */
  lemma BatchKeepsBooks(env: Env, s: State, w: nat, jobs: seq<Job>, error: Option<string>, l': Ledger)
    requires Books(env, s.ledger, Shares(s)) && w < |s.writers| && s.writers[w] == Publishing(jobs)
    requires l' == s.ledger.(blocks := l'.blocks, landed := l'.landed)
    ensures Books(env, l',
        PartsOf(s.write.queue, s.workers, s.writers[w := Recording(jobs, Completions(jobs, error), 0)]))
  {
    hide Books, PartsOf, Gather, Tally;
    var done := Completions(jobs, error);
    assert done[0..] == done;
    CompletionsDone(jobs, error);
    hide Completions;
    var ok := if error.Some? then multiset{} else BlocksOf(jobs);
    var err := if error.Some? then BlocksOf(jobs) else multiset{};
    EmptyAnswer(BlocksOf(jobs));
    AnswerShare(s.write.queue, s.workers, s.writers, w, Recording(jobs, done, 0), ok, err);
    AnswerKeepsBooks(env, s.ledger, Shares(s), l', ok, err);
  }

  lemma EmptyAnswer(b: multiset<BlockId>)
    ensures multiset{} + multiset{} + b == b && multiset{} + b + multiset{} == b && multiset{} + b == b
  {
  }

  /** One more answer moves one block out of the writer's unwritten jobs. */
  lemma PutMovesOne(jobs: seq<Job>, done: seq<Completion>, c: Completion, pc: WriterPc)
    requires |done| < |jobs| && c.block == jobs[|done|].block
    requires pc == if |done| + 1 == |jobs| then Recording(jobs, done + [c], 0) else Putting(jobs, done + [c])
    ensures var before, one := Putting(jobs, done), multiset{c.block};
      && UnputOf(before) ==
           UnputOf(pc) + (if c.error.None? then one else multiset{}) + (if c.error.Some? then one else multiset{})
      && PutOkOf(pc) == PutOkOf(before) + (if c.error.None? then one else multiset{})
      && PutErrOf(pc) == PutErrOf(before) + (if c.error.Some? then one else multiset{})
  {
    DoneGrows(done, c, false);
    DoneGrows(done, c, true);
    var more, rest := done + [c], jobs[|done|..];
    assert more[0..] == more && |more| == |done| + 1;
    assert rest[0] == jobs[|done|] && rest[1..] == jobs[|done| + 1..];
    assert BlocksOf(rest) == multiset{c.block} + BlocksOf(jobs[|done| + 1..]);
    if |more| == |jobs| { assert jobs[|more|..] == []; }
  }

  lemma PutKeepsBooks(env: Env, s: State, w: nat, jobs: seq<Job>, done: seq<Completion>, answer: WriteAnswer)
    requires Books(env, s.ledger, Shares(s)) && w < |s.writers| && s.writers[w] == Putting(jobs, done)
    requires |done| < |jobs|
    ensures var s' := PutStep(env, s, w, jobs, done, answer); Books(env, s'.ledger, Shares(s'))
  {
    hide Books, PartsOf, Gather, Tally;
    var s', b := PutStep(env, s, w, jobs, done, answer), jobs[|done|].block;
    var error := if answer.PutFailed? then Some(answer.message) else None;
    var c := Completion(b, |jobs[|done|].bytes|, jobs[|done|].countAsCopied, error);
    var ok, err := if error.None? then multiset{b} else multiset{}, if error.Some? then multiset{b} else multiset{};
    var pc := if |done| + 1 == |jobs| then Recording(jobs, done + [c], 0) else Putting(jobs, done + [c]);
    PutMovesOne(jobs, done, c, pc);
    AnswerShare(s.write.queue, s.workers, s.writers, w, s'.writers[w], ok, err);
    AnswerKeepsBooks(env, s.ledger, Shares(s), s'.ledger, ok, err);
  }

  lemma RecordKeepsBooks(env: Env, s: State, w: nat, jobs: seq<Job>, done: seq<Completion>, next: nat)
    requires Books(env, s.ledger, Shares(s)) && w < |s.writers| && s.writers[w] == Recording(jobs, done, next)
    requires next < |done|
    requires done[next].countAsCopied <==> env.limits.mode == WriteQueue.ReadBeforeWrite
    ensures var s' := RecordStep(s, w, jobs, done, next); Books(env, s'.ledger, Shares(s'))
  {
    hide Books, PartsOf, Gather, Tally, Settle;
    var s', c := RecordStep(s, w, jobs, done, next), done[next];
    DoneShrinks(done, next, false);
    DoneShrinks(done, next, true);
    SettleShare(s.write.queue, s.workers, s.writers, w, s'.writers[w], c);
    if c.error.None? {
      SettleOkKeepsBooks(env, s.ledger, Shares(s), c);
    } else {
      SettleErrKeepsBooks(env, s.ledger, Shares(s), c);
    }
  }

  /** The remaining steps of a writer touch no block's account, except that a failed
      checkpoint discards what is still queued. */
  lemma QuietWriteKeepsBooks(env: Env, s: State, w: nat, answer: WriteAnswer)
    requires Books(env, s.ledger, Shares(s)) && CanWrite(env, s, w, answer)
    requires s.writers[w].Releasing? || s.writers[w].Checkpointing? || s.writers[w].FinishingCheckpoint?
      || s.writers[w].ReportingFailure? || s.writers[w].RaisingStop?
    ensures var s' := WriteStep(env, s, w, answer); Books(env, s'.ledger, Shares(s'))
  {
    hide Books, PartsOf, Gather, Tally, FailStore;
    var s' := WriteStep(env, s, w, answer);
    QuietShare(s.write.queue, s.workers, s.writers, w, s'.writers[w]);
    if s.writers[w].ReportingFailure? { FailStoreKeepsBooks(env, s.ledger, Shares(s), s.writers[w].message); }
  }

  lemma SeekKeepsBooks(env: Env, s: State, w: nat)
    requires Books(env, s.ledger, Shares(s)) && w < |s.writers| && s.writers[w] == Seeking
    ensures var s' := SeekStep(env, s, w); Books(env, s'.ledger, Shares(s'))
  {
    hide Books, PartsOf, Gather, Tally, WriteQueue.NextAction;
    match WriteQueue.NextAction(env.limits, s.write, s.stop, s.capability)
    case Take(k) => if k <= |s.write.queue| { TakeShare(s.write.queue, s.workers, s.writers, w, k); }
    case RunCheckpoint => QuietShare(s.write.queue, s.workers, s.writers, w, Checkpointing);
    case Exit => QuietShare(s.write.queue, s.workers, s.writers, w, Returned);
    case Wait =>
  }

  /** Clearing the queue gives every job in it the fate of a discarded block. */
  lemma ClearKeepsBooks(env: Env, s: State, s': State)
    requires Books(env, s.ledger, Shares(s))
    requires s'.write.queue == [] && s'.workers == s.workers && s'.writers == s.writers
    requires s'.ledger == Discard(s.ledger, s.write.queue)
    ensures Books(env, s'.ledger, Shares(s'))
  {
    hide Books, Discard;
    var p, q, rest := Shares(s), BlocksOf(s.write.queue), Gather(s.writers, UnputOf);
    assert p.waiting == q + rest;
    DiscardKeepsBooks(env, s.ledger, p, s.write.queue);
    assert multiset{} + rest == (q + rest) - q;
    assert Shares(s') == p.(waiting := p.waiting - q);
  }

  lemma WriteKeepsBooks(env: Env, s: State, w: nat, answer: WriteAnswer)
    requires Accounts(env, s) && Shapes(s.writers, s.capability) && CanWrite(env, s, w, answer)
    ensures var s' := WriteStep(env, s, w, answer); Books(env, s'.ledger, Shares(s'))
  {
    hide Books, PartsOf, SeekStep, PublishStep, PutStep, RecordStep;
    match s.writers[w] {
      case Seeking => SeekKeepsBooks(env, s, w);
      case Publishing(jobs) => PublishKeepsBooks(env, s, w, jobs, answer);
      case Putting(jobs, done) => PutKeepsBooks(env, s, w, jobs, done, answer);
      case Recording(jobs, done, next) =>
        RecordedMode(env, s, w);
        RecordKeepsBooks(env, s, w, jobs, done, next);
      case FailingCheckpoint =>
        hide Discard;
        QuietShare(s.write.queue, s.workers, s.writers, w, Seeking);
        ClearKeepsBooks(env, Shift(s, w, Seeking), WriteStep(env, s, w, answer));
      case Returned =>
      case _ => QuietWriteKeepsBooks(env, s, w, answer);
    }
  }

  lemma RecordedMode(env: Env, s: State, w: nat)
    requires Honest(env, s) && Shapes(s.writers, s.capability) && w < |s.writers| && s.writers[w].Recording?
    ensures s.writers[w].next < |s.writers[w].done|
    ensures s.writers[w].done[s.writers[w].next].countAsCopied <==> env.limits.mode == WriteQueue.ReadBeforeWrite
  {
    assert ShapeOf(s.writers[w], s.capability);
    assert JobsGenuine(env, LoadOf(s.writers[w]));
    assert GenuineJob(env, s.writers[w].jobs[s.writers[w].next]);
  }

  lemma WriteKeepsHonest(env: Env, s: State, w: nat, answer: WriteAnswer)
    requires Honest(env, s) && CanWrite(env, s, w, answer)
    ensures Honest(env, WriteStep(env, s, w, answer))
  {
    hide ModeFits, GenuineJob;
    var s' := WriteStep(env, s, w, answer);
    WriteShiftsOne(env, s, w, answer);
    assert JobsGenuine(env, LoadOf(s.writers[w]));
    LoadStaysHonest(env, s, w, answer);
    hide WriteStep;
  }

  lemma LoadStaysHonest(env: Env, s: State, w: nat, answer: WriteAnswer)
    requires JobsGenuine(env, s.write.queue) && CanWrite(env, s, w, answer) && JobsGenuine(env, LoadOf(s.writers[w]))
    ensures var s' := WriteStep(env, s, w, answer);
      w < |s'.writers| && JobsGenuine(env, s'.write.queue) && JobsGenuine(env, LoadOf(s'.writers[w]))
  {
    if s.writers[w].Seeking? {
      SeekStaysHonest(env, s, w);
    } else {
      LoadStaysOrGoes(env, s, w, answer);
      hide WriteStep;
    }
  }

  lemma LoadStaysOrGoes(env: Env, s: State, w: nat, answer: WriteAnswer)
    requires CanWrite(env, s, w, answer) && !s.writers[w].Seeking?
    ensures var s' := WriteStep(env, s, w, answer);
      && w < |s'.writers|
      && (LoadOf(s'.writers[w]) == LoadOf(s.writers[w]) || LoadOf(s'.writers[w]) == [])
      && (s'.write.queue == s.write.queue || s'.write.queue == [])
  {
    match s.writers[w] {
      case Publishing(jobs) => PublishLoad(env, s, w, jobs, answer);
      case Putting(jobs, done) => PutLoad(env, s, w, jobs, done, answer);
      case Recording(jobs, done, next) => RecordLoad(s, w, jobs, done, next);
      case _ =>
    }
    hide SeekStep, PublishStep, PutStep, RecordStep, Discard;
  }

  /** The writer keeps its jobs or has none; the queue stays. */
  ghost predicate KeepsLoad(s: State, s': State, w: nat)
    requires w < |s.writers|
  {
    && w < |s'.writers| && s'.write.queue == s.write.queue
    && (LoadOf(s'.writers[w]) == LoadOf(s.writers[w]) || LoadOf(s'.writers[w]) == [])
  }

  lemma PublishLoad(env: Env, s: State, w: nat, jobs: seq<Job>, answer: WriteAnswer)
    requires w < |s.writers| && s.writers[w] == Publishing(jobs)
    ensures KeepsLoad(s, PublishStep(env, s, w, jobs, answer), w)
  {
    hide LandAll, LandSome, Completions;
  }

  lemma PutLoad(env: Env, s: State, w: nat, jobs: seq<Job>, done: seq<Completion>, answer: WriteAnswer)
    requires w < |s.writers| && s.writers[w] == Putting(jobs, done) && |done| < |jobs|
    ensures KeepsLoad(s, PutStep(env, s, w, jobs, done, answer), w)
  {
    hide Land;
  }

  lemma RecordLoad(s: State, w: nat, jobs: seq<Job>, done: seq<Completion>, next: nat)
    requires w < |s.writers| && s.writers[w] == Recording(jobs, done, next) && next < |done|
    ensures KeepsLoad(s, RecordStep(s, w, jobs, done, next), w)
  {
    hide Settle;
  }

  lemma SeekStaysHonest(env: Env, s: State, w: nat)
    requires JobsGenuine(env, s.write.queue) && w < |s.writers| && s.writers[w] == Seeking
    ensures var s' := SeekStep(env, s, w);
      w < |s'.writers| && JobsGenuine(env, s'.write.queue) && JobsGenuine(env, LoadOf(s'.writers[w]))
  {
    hide WriteQueue.NextAction, GenuineJob;
  }

  // ------------------------------------------------------------------ all steps

  lemma InterruptKeepsAccounts(env: Env, s: State, sawStop: bool)
    requires Accounts(env, s) && CanInterrupt(s, sawStop)
    ensures Accounts(env, InterruptStep(s, sawStop))
  {
    hide Books, PartsOf, Discard;
    var s' := InterruptStep(s, sawStop);
    if s.interrupter == ClosingWrites { ClearKeepsBooks(env, s, s'); }
  }

  lemma FinishProducingKeepsAccounts(env: Env, s: State, sawStop: bool)
    requires Accounts(env, s) && CanFinishProducing(s, sawStop)
    ensures Accounts(env, FinishProducingStep(s, sawStop))
  {
    hide Books, PartsOf, Discard;
    if sawStop { ClearKeepsBooks(env, s, FinishProducingStep(s, sawStop)); }
  }

  /** The books are straight after every step of every thread, whatever the stores answer. */
  lemma StepKeepsAccounts(env: Env, s: State, e: Event)
    requires Accounts(env, s) && Within(env, s) && Control(env, s) && Enabled(env, s, e)
    ensures Accounts(env, Apply(env, s, e))
  {
    hide Books, Shares, Honest, Within, WorkCtl, WriteCtl, EndCtl, Shapes, TraverseStep, WriteStep;
    hide CanTraverse, CanWrite;
    match e
    case Traverse(i, sawStop, check) =>
      TraverseKeepsBooks(env, s, i, sawStop, check);
      TraverseKeepsHonest(env, s, i, sawStop, check);
    case Write(w, answer) =>
      WriteKeepsBooks(env, s, w, answer);
      WriteKeepsHonest(env, s, w, answer);
    case FinishProducing(sawStop) => FinishProducingKeepsAccounts(env, s, sawStop);
    case Interrupt(sawStop) => InterruptKeepsAccounts(env, s, sawStop);
  }
}
