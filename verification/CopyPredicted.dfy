/** What the multi-worker copy does to the destination: whatever the store answers, exactly
    what landed can differ from before; and if its answers are predictable, every block
    meets the fate that was expected of it, whatever the schedule. */
module CopyPredicted {
  import opened Options
  import opened BlockGraph
  import opened Tallies
  import opened Ledger
  import opened Destination
  import opened Frontier
  import opened CopyProtocol
  import opened CopyControl
  import opened CopyProgress
  import opened CopyAccounts
  import opened CopyFront
  import WorkQueue
  import WriteQueue


  /** What the threads hold in their hands agrees with what is in the destination, and with
      what a predictable store will answer. */
  ghost predicate HandExpected(env: Env, pc: TraversalPc) {
    match pc
    case Skipping(b) =>
      && (LooksUpTruly(env.store) ==> b in env.initial)
      && (env.store.Predictable? ==> ExpectedFate(env, b) == Skipped)
    case FailingCheck(b, m) => env.store.Predictable? ==> ExpectedFate(env, b) == CheckFailed(m)
    case Submitting(b) => env.store.Predictable? ==> WantsWrite(env, b)
    case _ => true
  }

  function DoneOf(pc: WriterPc): seq<Completion> {
    match pc
    case Putting(_, done) => done
    case Recording(_, done, _) => done
    case _ => []
  }

  ghost predicate HandsExpected(env: Env, s: State) {
    && (forall i :: 0 <= i < |s.workers| ==> HandExpected(env, s.workers[i]))
    && (forall w :: 0 <= w < |s.writers| ==> AsPredicted(env, DoneOf(s.writers[w])))
  }

  ghost predicate Predicted(env: Env, s: State) {
    Faithful(env, s.ledger, Shares(s)) && HandsExpected(env, s)
  }

  lemma InitialPredicted(env: Env, workerCount: nat)
    ensures Predicted(env, Initial(env, workerCount))
  {
    InitialShares(env, workerCount);
    OpenedFaithful(env);
    hide Faithful, Shares;
  }

  // --------------------------------------------------------------- traversal steps

  /** What a traversal step adds to the ledger's fates. */
  datatype Added = Nothing | Gives(block: BlockId, fate: Fate)

  function AddedBy(env: Env, s: State, i: nat, sawStop: bool): Added
    requires i < |s.workers|
  {
    match s.workers[i]
    case Reading(item) => if Readable(env.source, item.block) then Nothing else Gives(item.block, ReadFailed)
    case Checking(b) => if sawStop then Gives(b, Abandoned) else Nothing
    case Skipping(b) => Gives(b, Skipped)
    case FailingCheck(b, m) => Gives(b, CheckFailed(m))
    case Submitting(b) =>
      if Readable(env.source, b) && WriteQueue.Admit(env.limits, s.write, JobFor(env, b), s.stop) == WriteQueue.Refused
      then Gives(b, Abandoned) else Nothing
    case _ => Nothing
  }

  ghost predicate Frames(env: Env, s: State, s': State, i: nat, sawStop: bool)
    requires i < |s.workers|
  {
    var a := AddedBy(env, s, i, sawStop);
    && s'.ledger.blocks == s.ledger.blocks && s'.ledger.landed == s.ledger.landed
    && s'.ledger.fate == if a.Nothing? then s.ledger.fate else s.ledger.fate[a.block := a.fate]
  }

  lemma TraverseFrame(env: Env, s: State, i: nat, sawStop: bool, check: CheckAnswer)
    requires CanTraverse(env, s, i, sawStop, check)
    ensures Frames(env, s, TraverseStep(env, s, i, sawStop, check), i, sawStop)
  {
    hide Frames;
    match s.workers[i] {
      case Reading(_) => FateFrame(env, s, i, sawStop, check);
      case Skipping(_) => FateFrame(env, s, i, sawStop, check);
      case FailingCheck(_, _) => FateFrame(env, s, i, sawStop, check);
      case Checking(b) => CheckFrame(env, s, i, b, sawStop, check);
      case Submitting(b) => SubmitFrame(env, s, i, b, sawStop);
      case _ => QuietFrame(env, s, i, sawStop, check);
    }
  }

  lemma FateFrame(env: Env, s: State, i: nat, sawStop: bool, check: CheckAnswer)
    requires CanTraverse(env, s, i, sawStop, check)
    requires s.workers[i].Reading? || s.workers[i].Skipping? || s.workers[i].FailingCheck?
    ensures Frames(env, s, TraverseStep(env, s, i, sawStop, check), i, sawStop)
  {
    hide PopStep, VisitStep, SpreadStep, CheckStep, SubmitStep;
  }

  lemma CheckFrame(env: Env, s: State, i: nat, b: BlockId, sawStop: bool, check: CheckAnswer)
    requires i < |s.workers| && s.workers[i] == Checking(b)
    ensures Frames(env, s, CheckStep(s, i, b, sawStop, check), i, sawStop)
  {
  }

  lemma SubmitFrame(env: Env, s: State, i: nat, b: BlockId, sawStop: bool)
    requires i < |s.workers| && s.workers[i] == Submitting(b) && Readable(env.source, b)
    ensures Frames(env, s, SubmitStep(env, s, i, b), i, sawStop)
  {
  }

  lemma QuietFrame(env: Env, s: State, i: nat, sawStop: bool, check: CheckAnswer)
    requires CanTraverse(env, s, i, sawStop, check)
    requires !s.workers[i].Reading? && !s.workers[i].Skipping? && !s.workers[i].FailingCheck?
    requires !s.workers[i].Checking? && !s.workers[i].Submitting?
    ensures Frames(env, s, TraverseStep(env, s, i, sawStop, check), i, sawStop)
    ensures SameOutcome(s, TraverseStep(env, s, i, sawStop, check))
  {
    match s.workers[i] {
      case Idle => PopFrame(s, i);
      case Visiting(item) => VisitFrame(s, i, item);
      case Spreading(item) => SpreadFrame(env, s, i, item, sawStop);
      case _ =>
    }
    hide PopStep, VisitStep, SpreadStep, ReadStep, CheckStep, SubmitStep;
  }

  /** Steps that neither write nor finish a block. */
  ghost predicate SameOutcome(s: State, s': State) {
    && s'.ledger.blocks == s.ledger.blocks && s'.ledger.landed == s.ledger.landed && s'.ledger.fate == s.ledger.fate
    && s'.ledger.log.store == s.ledger.log.store && s'.stop == s.stop && s'.writers == s.writers
  }

  lemma PopFrame(s: State, i: nat)
    requires i < |s.workers|
    ensures SameOutcome(s, PopStep(s, i))
  {
    hide WorkQueue.AfterPop;
  }

  lemma VisitFrame(s: State, i: nat, item: Item)
    requires i < |s.workers|
    ensures SameOutcome(s, VisitStep(s, i, item))
  {
  }

  lemma SpreadFrame(env: Env, s: State, i: nat, item: Item, sawStop: bool)
    requires i < |s.workers|
    ensures SameOutcome(s, SpreadStep(env, s, i, item, sawStop))
  {
    hide WorkQueue.EnqueueChildren;
  }

  /** The block whose fate a step adds is in the worker's share. */
  lemma AddedIsOpen(env: Env, s: State, i: nat, sawStop: bool)
    requires Books(env, s.ledger, Shares(s)) && i < |s.workers| && AddedBy(env, s, i, sawStop).Gives?
    ensures AddedBy(env, s, i, sawStop).block !in s.ledger.fate
  {
    hide Books, PartsOf;
    AddedIsInHand(env, s, i, sawStop);
    PartIsOpen(env, s.ledger, Shares(s), AddedBy(env, s, i, sawStop).block);
  }

  lemma AddedIsInHand(env: Env, s: State, i: nat, sawStop: bool)
    requires i < |s.workers| && AddedBy(env, s, i, sawStop).Gives?
    ensures AddedBy(env, s, i, sawStop).block in Outstanding(Shares(s))
  {
    hide PartsOf;
    AddedIsHeld(env, s, i, sawStop);
  }

  lemma AddedIsHeld(env: Env, s: State, i: nat, sawStop: bool)
    requires i < |s.workers| && AddedBy(env, s, i, sawStop).Gives?
    ensures AddedBy(env, s, i, sawStop).block in Shares(s).reading + Shares(s).held
  {
    hide Gather, Tally, WriteQueue.Admit;
    GatherHolds(s.workers, i, ReadingOf);
    GatherHolds(s.workers, i, HeldOf);
    var b := AddedBy(env, s, i, sawStop).block;
    assert b in ReadingOf(s.workers[i]) + HeldOf(s.workers[i]);
  }

  /** A step that accepts no write and visits nothing new only passes its block on. */
  lemma ShareShrinks(env: Env, s: State, i: nat, sawStop: bool, check: CheckAnswer)
    requires CanTraverse(env, s, i, sawStop, check) && !s.workers[i].Visiting?
    requires TraverseStep(env, s, i, sawStop, check).write.queue == s.write.queue
    ensures var s' := TraverseStep(env, s, i, sawStop, check);
      var p, p' := Shares(s), Shares(s');
      && p'.reading + p'.held <= p.reading + p.held
      && p'.waiting == p.waiting && p'.putOk == p.putOk && p'.putErr == p.putErr
      && (AddedBy(env, s, i, sawStop).Gives? ==>
           && p'.reading <= p.reading && p'.held <= p.held
           && AddedBy(env, s, i, sawStop).block in p.reading + p.held)
  {
    var s' := TraverseStep(env, s, i, sawStop, check);
    TraverseMovesOne(env, s, i, sawStop, check);
    WorkerShare(s.write.queue, s.workers, s.writers, i, s'.workers[i]);
    SlotsPassOn(env, s, i, sawStop, check);
    QueueAfterTraverse(env, s, i, sawStop, check);
    if AddedBy(env, s, i, sawStop).Gives? { AddedIsHeld(env, s, i, sawStop); }
    hide TraverseStep, CanTraverse, PartsOf;
    SlotsShrink(Shares(s), Shares(s'), s.workers[i], s'.workers[i]);
  }

  /** How the block in a worker's hand goes from being read to being held, and from there. */
  ghost predicate PassesOn(pc: TraversalPc, pc': TraversalPc, gives: bool) {
    && (ReadingSlot(pc') == ReadingSlot(pc) || ReadingSlot(pc') == None)
    && (HeldSlot(pc') == HeldSlot(pc) || HeldSlot(pc') == None ||
         (!gives && HeldSlot(pc).None? && HeldSlot(pc') == ReadingSlot(pc)))
    && (HeldSlot(pc').Some? ==> ReadingSlot(pc').None?)
  }

  lemma SlotsPassOn(env: Env, s: State, i: nat, sawStop: bool, check: CheckAnswer)
    requires CanTraverse(env, s, i, sawStop, check) && !s.workers[i].Visiting?
    requires TraverseStep(env, s, i, sawStop, check).write.queue == s.write.queue
    ensures var s' := TraverseStep(env, s, i, sawStop, check);
      i < |s'.workers| && PassesOn(s.workers[i], s'.workers[i], AddedBy(env, s, i, sawStop).Gives?)
  {
    match s.workers[i] {
      case Idle => PopPasses(s, i);
      case Reading(item) => ReadPasses(env, s, i, item);
      case Spreading(item) => SpreadPasses(env, s, i, item, sawStop);
      case Checking(b) => CheckPasses(s, i, b, sawStop, check);
      case Submitting(b) => SubmitPasses(env, s, i, b);
      case _ =>
    }
    hide PopStep, VisitStep, ReadStep, SpreadStep, CheckStep, SubmitStep;
  }

  lemma PopPasses(s: State, i: nat)
    requires i < |s.workers| && s.workers[i] == Idle
    ensures i < |PopStep(s, i).workers| && PassesOn(Idle, PopStep(s, i).workers[i], false)
  {
    hide WorkQueue.AfterPop;
  }

  lemma ReadPasses(env: Env, s: State, i: nat, item: Item)
    requires i < |s.workers|
    ensures var s' := ReadStep(env, s, i, item);
      i < |s'.workers| && PassesOn(Reading(item), s'.workers[i], !Readable(env.source, item.block))
  {
    hide FailRead, CountRead;
  }

  lemma SpreadPasses(env: Env, s: State, i: nat, item: Item, sawStop: bool)
    requires i < |s.workers|
    ensures var s' := SpreadStep(env, s, i, item, sawStop);
      i < |s'.workers| && PassesOn(Spreading(item), s'.workers[i], false)
  {
    hide WorkQueue.EnqueueChildren;
  }

  lemma CheckPasses(s: State, i: nat, b: BlockId, sawStop: bool, check: CheckAnswer)
    requires i < |s.workers|
    ensures var s' := CheckStep(s, i, b, sawStop, check);
      i < |s'.workers| && PassesOn(Checking(b), s'.workers[i], sawStop)
  {
    hide Abandon;
  }

  lemma SubmitPasses(env: Env, s: State, i: nat, b: BlockId)
    requires i < |s.workers| && s.workers[i] == Submitting(b) && Readable(env.source, b)
    requires SubmitStep(env, s, i, b).write.queue == s.write.queue
    ensures var s' := SubmitStep(env, s, i, b);
      i < |s'.workers| && PassesOn(Submitting(b), s'.workers[i], AddedBy(env, s, i, false).Gives?)
  {
    hide Abandon, WriteQueue.Admit;
  }

  lemma SlotsShrink(p: Parts, p': Parts, pc: TraversalPc, pc': TraversalPc)
    requires PassesOn(pc, pc', false)
    requires SlotMoved(p.reading, p'.reading, ReadingSlot(pc), ReadingSlot(pc'))
    requires SlotMoved(p.held, p'.held, HeldSlot(pc), HeldSlot(pc'))
    ensures p'.reading + p'.held <= p.reading + p.held
    ensures PassesOn(pc, pc', true) ==> p'.reading <= p.reading && p'.held <= p.held
  {
    hide ReadingSlot, HeldSlot;
    if HeldSlot(pc') == HeldSlot(pc) || HeldSlot(pc').None? {
      assert p'.reading <= p.reading && p'.held <= p.held;
    } else {
      var b := ReadingSlot(pc).value;
      assert p'.reading == p.reading - multiset{b} && p'.held == p.held + multiset{b};
    }
  }

  lemma TraverseKeepsFaithful(env: Env, s: State, i: nat, sawStop: bool, check: CheckAnswer)
    requires Predicted(env, s) && Books(env, s.ledger, Shares(s)) && Frontal(env, s)
    requires CanTraverse(env, s, i, sawStop, check)
    ensures var s' := TraverseStep(env, s, i, sawStop, check); Faithful(env, s'.ledger, Shares(s'))
  {
    assert HandExpected(env, s.workers[i]);
    hide Books, Faithful, Frontal, Shares, TraverseStep, CanTraverse, HandExpected;
    if s.workers[i].Visiting? {
      VisitingKeepsFaithful(env, s, i, s.workers[i].item, sawStop, check);
    } else if TraverseStep(env, s, i, sawStop, check).write.queue != s.write.queue {
      SubmittingKeepsFaithful(env, s, i, sawStop, check);
    } else {
      PassingKeepsFaithful(env, s, i, sawStop, check);
    }
  }

  lemma VisitingKeepsFaithful(env: Env, s: State, i: nat, item: Item, sawStop: bool, check: CheckAnswer)
    requires Faithful(env, s.ledger, Shares(s)) && Frontal(env, s)
    requires CanTraverse(env, s, i, sawStop, check) && s.workers[i] == Visiting(item)
    ensures var s' := TraverseStep(env, s, i, sawStop, check); Faithful(env, s'.ledger, Shares(s'))
  {
    hide Faithful, Shares, Frontal;
    var s' := VisitStep(s, i, item);
    VisitShares(s, i, item);
    if item.block in s.ledger.visited {
      QuietKeepsFaithful(env, s.ledger, Shares(s), s'.ledger, Shares(s'));
    } else {
      VisitedIsReachable(env, s, i, item);
      VisitKeepsFaithful(env, s.ledger, Shares(s), Shares(s'), item.block);
    }
  }

  lemma VisitedIsReachable(env: Env, s: State, i: nat, item: Item)
    requires Frontal(env, s) && i < |s.workers| && s.workers[i] == Visiting(item)
    ensures item.block in ReachableSet(env.source, env.roots)
  {
    hide OnTrack, Covers, Reach;
    assert HandGenuine(env, s.ledger.log, s.workers[i]);
    assert item in ItemsIn(s.workers[i]);
    assert ReachFromAny(SourceGraph(env.source), env.roots, item.block);
  }

  lemma VisitShares(s: State, i: nat, item: Item)
    requires i < |s.workers| && s.workers[i] == Visiting(item)
    ensures var p, p' := Shares(s), Shares(VisitStep(s, i, item));
      p' == if item.block in s.ledger.visited then p
            else p.(reading := p.reading + multiset{item.block}, unread := p'.unread)
  {
    hide PartsOf;
    WorkerShare(s.write.queue, s.workers, s.writers, i, VisitStep(s, i, item).workers[i]);
  }

  lemma SubmittingKeepsFaithful(env: Env, s: State, i: nat, sawStop: bool, check: CheckAnswer)
    requires Faithful(env, s.ledger, Shares(s)) && CanTraverse(env, s, i, sawStop, check)
    requires HandExpected(env, s.workers[i])
    requires TraverseStep(env, s, i, sawStop, check).write.queue != s.write.queue
    ensures var s' := TraverseStep(env, s, i, sawStop, check); Faithful(env, s'.ledger, Shares(s'))
  {
    var s' := TraverseStep(env, s, i, sawStop, check);
    QueueAfterTraverse(env, s, i, sawStop, check);
    var b := s.workers[i].block;
    SubmitShares(env, s, i, b);
    hide Faithful, PartsOf;
    AcceptKeepsFaithful(env, s.ledger, Shares(s), Shares(s'), b);
  }

  lemma SubmitShares(env: Env, s: State, i: nat, b: BlockId)
    requires i < |s.workers| && s.workers[i] == Submitting(b) && Readable(env.source, b)
    requires WriteQueue.Admit(env.limits, s.write, JobFor(env, b), s.stop) == WriteQueue.Accepted
    ensures var p, p' := Shares(s), Shares(SubmitStep(env, s, i, b));
      && b in p.held
      && p' == p.(held := p.held - multiset{b}, waiting := p.waiting + multiset{b}, uncounted := p'.uncounted)
  {
    hide PartsOf, WriteQueue.Admit;
    var s' := SubmitStep(env, s, i, b);
    WorkerShare(s.write.queue, s.workers, s.writers, i, s'.workers[i]);
    QueueGrows(s.write.queue, s'.workers, s.writers, JobFor(env, b));
  }

  lemma PassingKeepsFaithful(env: Env, s: State, i: nat, sawStop: bool, check: CheckAnswer)
    requires Faithful(env, s.ledger, Shares(s)) && Books(env, s.ledger, Shares(s))
    requires CanTraverse(env, s, i, sawStop, check) && !s.workers[i].Visiting? && HandExpected(env, s.workers[i])
    requires TraverseStep(env, s, i, sawStop, check).write.queue == s.write.queue
    ensures var s' := TraverseStep(env, s, i, sawStop, check); Faithful(env, s'.ledger, Shares(s'))
  {
    hide Books, Faithful, Shares;
    var s', a := TraverseStep(env, s, i, sawStop, check), AddedBy(env, s, i, sawStop);
    TraverseFrame(env, s, i, sawStop, check);
    ShareShrinks(env, s, i, sawStop, check);
    VisitedStays(env, s, i, sawStop, check);
    if a.Gives? { AddedIsOpen(env, s, i, sawStop); }
    hide TraverseStep, CanTraverse;
    if a.Gives? {
      FinishKeepsFaithful(env, s.ledger, Shares(s), s'.ledger, Shares(s'), a.block, a.fate);
    } else {
      QuietKeepsFaithful(env, s.ledger, Shares(s), s'.ledger, Shares(s'));
    }
  }

  lemma VisitedStays(env: Env, s: State, i: nat, sawStop: bool, check: CheckAnswer)
    requires CanTraverse(env, s, i, sawStop, check) && !s.workers[i].Visiting?
    ensures TraverseStep(env, s, i, sawStop, check).ledger.visited == s.ledger.visited
  {
    hide WorkQueue.AfterPop, WorkQueue.FinishItem, WorkQueue.EnqueueChildren, CheckAllowed;
  }

  lemma QueueAfterTraverse(env: Env, s: State, i: nat, sawStop: bool, check: CheckAnswer)
    requires CanTraverse(env, s, i, sawStop, check)
    ensures var s' := TraverseStep(env, s, i, sawStop, check);
      && s'.writers == s.writers
      && (s'.write.queue != s.write.queue ==>
           s.workers[i].Submitting? && Readable(env.source, s.workers[i].block) &&
             s'.write.queue == s.write.queue + [JobFor(env, s.workers[i].block)])
  {
    hide WorkQueue.Pop;
  }

  lemma CheckKeepsHand(env: Env, s: State, i: nat, b: BlockId, check: CheckAnswer)
    requires Faithful(env, s.ledger, Shares(s)) && Books(env, s.ledger, Shares(s))
    requires i < |s.workers| && s.workers[i] == Checking(b) && CheckAllowed(env, s.ledger, b, check)
    requires Readable(env.source, b) && env.limits.mode == WriteQueue.ReadBeforeWrite
    ensures HandExpected(env, CheckStep(s, i, b, false, check).workers[i])
  {
    hide Books, Shares, Faithful;
    DropShare(env, s, i, b);
    assert b in Shares(s).reading + Shares(s).held + Shares(s).waiting;
    UnwrittenIsInitial(env, s.ledger, Shares(s), b);
  }

  lemma TraverseKeepsHands(env: Env, s: State, i: nat, sawStop: bool, check: CheckAnswer)
    requires Predicted(env, s) && Accounts(env, s) && Within(env, s) && CanTraverse(env, s, i, sawStop, check)
    ensures HandsExpected(env, TraverseStep(env, s, i, sawStop, check))
  {
    hide AsPredicted, HandExpected;
    TraverseKeepsHand(env, s, i, sawStop, check);
    TraverseMovesOne(env, s, i, sawStop, check);
    QueueAfterTraverse(env, s, i, sawStop, check);
    hide Accounts, Faithful, Within, TraverseStep, CanTraverse;
  }

  lemma TraverseKeepsHand(env: Env, s: State, i: nat, sawStop: bool, check: CheckAnswer)
    requires Predicted(env, s) && Accounts(env, s) && Within(env, s) && CanTraverse(env, s, i, sawStop, check)
    ensures var s' := TraverseStep(env, s, i, sawStop, check); i < |s'.workers| && HandExpected(env, s'.workers[i])
  {
    HandFacts(env, s, i);
    hide Books, Shares, Faithful, Honest, Within, HandsExpected, Predicted, Accounts, HandExpected;
    match s.workers[i] {
      case Checking(b) => CheckingHand(env, s, i, b, sawStop, check);
      case Spreading(item) => SpreadingHand(env, s, i, item, sawStop);
      case _ => OtherHands(env, s, i, sawStop, check);
    }
    hide PopStep, VisitStep, ReadStep, SpreadStep, CheckStep, SubmitStep;
  }

  lemma CheckingHand(env: Env, s: State, i: nat, b: BlockId, sawStop: bool, check: CheckAnswer)
    requires Faithful(env, s.ledger, Shares(s)) && Books(env, s.ledger, Shares(s))
    requires i < |s.workers| && s.workers[i] == Checking(b) && (sawStop || CheckAllowed(env, s.ledger, b, check))
    requires Readable(env.source, b) && env.limits.mode == WriteQueue.ReadBeforeWrite
    ensures var s' := CheckStep(s, i, b, sawStop, check); i < |s'.workers| && HandExpected(env, s'.workers[i])
  {
    hide Books, Shares, Faithful, Abandon;
    if !sawStop { CheckKeepsHand(env, s, i, b, check); }
  }

  lemma SpreadingHand(env: Env, s: State, i: nat, item: Item, sawStop: bool)
    requires i < |s.workers| && Readable(env.source, item.block)
    ensures var s' := SpreadStep(env, s, i, item, sawStop); i < |s'.workers| && HandExpected(env, s'.workers[i])
  {
    hide WorkQueue.EnqueueChildren, ExpectedFate;
  }

  lemma OtherHands(env: Env, s: State, i: nat, sawStop: bool, check: CheckAnswer)
    requires CanTraverse(env, s, i, sawStop, check)
    requires !s.workers[i].Checking? && !s.workers[i].Spreading?
    ensures var s' := TraverseStep(env, s, i, sawStop, check); i < |s'.workers| && HandExpected(env, s'.workers[i])
  {
    hide ExpectedFate, WantsWrite, Decode, FailRead, CountRead, Visit, Abandon, SkipPresent, FailCheck, NoteAt;
    hide CountAttempt;
    hide WorkQueue.AfterPop, WorkQueue.FinishItem, WriteQueue.Enqueue, WriteQueue.Admit, JobFor, CheckAllowed;
  }

  // ------------------------------------------------------------------- write steps

  /** The books and the destination's account when the answers for some jobs are known. */
  function AfterAnswer(p: Parts, b: BlockId, ok: bool): Parts {
    if ok then p.(waiting := p.waiting - multiset{b}, putOk := p.putOk + multiset{b})
    else p.(waiting := p.waiting - multiset{b}, putErr := p.putErr + multiset{b})
  }

  lemma LandOne(env: Env, l: Ledger, p: Parts, job: Job, ok: bool)
    requires Books(env, l, p) && Faithful(env, l, p) && job.block in p.waiting && GenuineJob(env, job)
    requires Orderly(env) ==> ok && WriteError(env, job.block).None?
    ensures Books(env, Land(env, l, job), AfterAnswer(p, job.block, ok))
    ensures Faithful(env, Land(env, l, job), AfterAnswer(p, job.block, ok))
  {
    hide Books, Faithful;
    var b, one := job.block, multiset{job.block};
    LandKeepsFaithful(env, l, p, AfterAnswer(p, b, ok), b);
    EmptyBags(p.waiting, p.putErr);
    EmptyBags(p.waiting - one, p.putErr);
    EmptyBags(p.waiting, p.putOk);
    if ok {
      AnswerKeepsBooks(env, l, p, Land(env, l, job), one, multiset{});
    } else {
      AnswerKeepsBooks(env, l, p, Land(env, l, job), multiset{}, one);
    }
  }

  lemma RefuseOne(env: Env, l: Ledger, p: Parts, b: BlockId)
    requires Books(env, l, p) && Faithful(env, l, p) && b in p.waiting
    requires Orderly(env) ==> WriteError(env, b).Some?
    ensures Books(env, l, AfterAnswer(p, b, false)) && Faithful(env, l, AfterAnswer(p, b, false))
  {
    hide Books, Faithful;
    RefuseKeepsFaithful(env, l, p, b);
    EmptyBags(p.waiting, p.putOk);
    AnswerKeepsBooks(env, l, p, l, multiset{}, multiset{b});
  }

  lemma EmptyBags(a: multiset<BlockId>, b: multiset<BlockId>)
    ensures a - multiset{} == a && b + multiset{} == b
  {
  }

  lemma PeelBags(waiting: multiset<BlockId>, put: multiset<BlockId>, one: multiset<BlockId>, more: multiset<BlockId>)
    requires one + more <= waiting
    ensures waiting - one - more == waiting - (one + more) && put + one + more == put + (one + more)
    ensures more <= waiting - one
  {
  }

  lemma RestGenuine(env: Env, jobs: seq<Job>)
    requires JobsGenuine(env, jobs) && jobs != []
    ensures GenuineJob(env, jobs[0]) && JobsGenuine(env, jobs[1..]) && jobs[0].block in BlocksOf(jobs)
  {
    forall j | 0 <= j < |jobs[1..]| ensures GenuineJob(env, jobs[1..][j]) { assert jobs[1..][j] == jobs[j + 1]; }
  }

  lemma {:induction false} LandAllKeepsFaithful(env: Env, l: Ledger, p: Parts, jobs: seq<Job>)
    requires Books(env, l, p) && Faithful(env, l, p) && BlocksOf(jobs) <= p.waiting && JobsGenuine(env, jobs)
    requires Orderly(env) ==> forall j :: 0 <= j < |jobs| ==> jobs[j].block !in env.store.writeErrors
    ensures Faithful(env, LandAll(env, l, jobs),
        p.(waiting := p.waiting - BlocksOf(jobs), putOk := p.putOk + BlocksOf(jobs)))
    decreases |jobs|
  {
    hide Books, Faithful, Orderly, JobsGenuine;
    if jobs == [] {
      EmptyBags(p.waiting, p.putOk);
    } else {
      var job, b := jobs[0], jobs[0].block;
      RestGenuine(env, jobs);
      LandOne(env, l, p, job, true);
      PeelBags(p.waiting, p.putOk, multiset{b}, BlocksOf(jobs[1..]));
      LandAllKeepsFaithful(env, Land(env, l, job), AfterAnswer(p, b, true), jobs[1..]);
    }
  }

  /** A batch that fails as a whole may have written any of its jobs. */
  lemma {:induction false} LandSomeKeepsFaithful(env: Env, l: Ledger, p: Parts, jobs: seq<Job>, some: set<BlockId>)
    requires Books(env, l, p) && Faithful(env, l, p) && BlocksOf(jobs) <= p.waiting && JobsGenuine(env, jobs)
    requires !Orderly(env)
    ensures Faithful(env, LandSome(env, l, jobs, some),
        p.(waiting := p.waiting - BlocksOf(jobs), putErr := p.putErr + BlocksOf(jobs)))
    decreases |jobs|
  {
    hide Books, Faithful, Orderly, JobsGenuine;
    if jobs == [] {
      EmptyBags(p.waiting, p.putErr);
    } else {
      var job, b := jobs[0], jobs[0].block;
      RestGenuine(env, jobs);
      if b in some { LandOne(env, l, p, job, false); } else { RefuseOne(env, l, p, b); }
      PeelBags(p.waiting, p.putErr, multiset{b}, BlocksOf(jobs[1..]));
      LandSomeKeepsFaithful(env, if b in some then Land(env, l, job) else l, AfterAnswer(p, b, false), jobs[1..], some);
    }
  }

  /** An orderly store takes every batch this copy can offer: its jobs are for reachable
      blocks that want to be written. */
  lemma OrderlyTakesBatches(env: Env, l: Ledger, p: Parts, jobs: seq<Job>, answer: WriteAnswer)
    requires Orderly(env) && Books(env, l, p) && Faithful(env, l, p) && BlocksOf(jobs) <= p.waiting
    requires BatchAllowed(env, jobs, answer)
    ensures !answer.BatchFailed?
  {
    hide Books, BlocksHold, Landed, ExpectedFate, WantsWrite;
    if answer.BatchFailed? {
      var j :| 0 <= j < |jobs| && jobs[j].block in env.store.writeErrors;
      var b := jobs[j].block;
      JobIsWaiting(jobs, j);
      assert b in p.waiting + p.putOk + p.putErr && b in Outstanding(p);
      PartIsOpen(env, l, p, b);
    }
  }

  lemma {:induction false} JobIsWaiting(jobs: seq<Job>, j: nat)
    requires j < |jobs|
    ensures jobs[j].block in BlocksOf(jobs)
  {
    if j > 0 { JobIsWaiting(jobs[1..], j - 1); }
  }

  lemma PublishKeepsFaithful(env: Env, s: State, w: nat, jobs: seq<Job>, answer: WriteAnswer)
    requires Books(env, s.ledger, Shares(s)) && Faithful(env, s.ledger, Shares(s))
    requires w < |s.writers| && s.writers[w] == Publishing(jobs) && JobsGenuine(env, jobs)
    requires OffersBatch(jobs, s.capability) ==> BatchAllowed(env, jobs, answer)
    ensures var s' := PublishStep(env, s, w, jobs, answer); Faithful(env, s'.ledger, Shares(s'))
  {
    hide Books, Faithful, PartsOf, Orderly, JobsGenuine;
    var s' := PublishStep(env, s, w, jobs, answer);
    assert jobs[0..] == jobs;
    if !OffersBatch(jobs, s.capability) || answer.BatchUnsupported? {
      QuietShare(s.write.queue, s.workers, s.writers, w, Putting(jobs, []));
    } else {
      PublishedIsWaiting(s, w, jobs);
      if Orderly(env) { OrderlyTakesBatches(env, s.ledger, Shares(s), jobs, answer); }
      BatchKeepsFaithful(env, s, w, jobs, answer);
    }
  }

  lemma PublishedIsWaiting(s: State, w: nat, jobs: seq<Job>)
    requires w < |s.writers| && s.writers[w] == Publishing(jobs)
    ensures BlocksOf(jobs) <= Shares(s).waiting
  {
    WriterShare(s.write.queue, s.workers, s.writers, w, Seeking);
    hide PartsOf;
  }

  lemma BatchKeepsFaithful(env: Env, s: State, w: nat, jobs: seq<Job>, answer: WriteAnswer)
    requires Books(env, s.ledger, Shares(s)) && Faithful(env, s.ledger, Shares(s))
    requires w < |s.writers| && s.writers[w] == Publishing(jobs) && JobsGenuine(env, jobs)
    requires OffersBatch(jobs, s.capability) && BatchAllowed(env, jobs, answer) && !answer.BatchUnsupported?
    requires Orderly(env) ==> !answer.BatchFailed?
    ensures var s' := PublishStep(env, s, w, jobs, answer); Faithful(env, s'.ledger, Shares(s'))
  {
    hide Books, Faithful, PartsOf, JobsGenuine, LandAll, LandSome, Completions, Orderly, BlocksOf;
    var p, bag := Shares(s), BlocksOf(jobs);
    BatchShare(s, w, jobs, if answer.BatchOk? then None else Some(answer.message));
    PublishedIsWaiting(s, w, jobs);
    hide Shares;
    if answer.BatchOk? { OkTakesAll(env, jobs, answer); }
    if answer.BatchOk? {
      LandAllKeepsFaithful(env, s.ledger, p, jobs);
    } else {
      LandSomeKeepsFaithful(env, s.ledger, p, jobs, answer.landed);
    }
  }

  /** What an answered batch call does to the shares. */
  lemma BatchShare(s: State, w: nat, jobs: seq<Job>, error: Option<string>)
    requires w < |s.writers| && s.writers[w] == Publishing(jobs)
    ensures var p, bag := Shares(s), BlocksOf(jobs);
      Shares(Shift(s, w, Recording(jobs, Completions(jobs, error), 0))) ==
        if error.None? then p.(waiting := p.waiting - bag, putOk := p.putOk + bag)
        else p.(waiting := p.waiting - bag, putErr := p.putErr + bag)
  {
    hide PartsOf, BlocksOf, Gather, Tally;
    var done, p := Completions(jobs, error), Shares(s);
    var ok := if error.None? then BlocksOf(jobs) else multiset{};
    var err := if error.None? then multiset{} else BlocksOf(jobs);
    assert done[0..] == done;
    CompletionsDone(jobs, error);
    EmptyAnswer(BlocksOf(jobs));
    AnswerShare(s.write.queue, s.workers, s.writers, w, Recording(jobs, done, 0), ok, err);
    EmptyBags(p.waiting, p.putOk);
    EmptyBags(p.waiting - BlocksOf(jobs), p.putErr);
  }

  lemma OkTakesAll(env: Env, jobs: seq<Job>, answer: WriteAnswer)
    requires BatchAllowed(env, jobs, answer) && answer.BatchOk?
    ensures Orderly(env) ==> forall j :: 0 <= j < |jobs| ==> jobs[j].block !in env.store.writeErrors
  {
  }

  lemma PutShare(s: State, w: nat, jobs: seq<Job>, done: seq<Completion>, c: Completion, pc: WriterPc)
    requires w < |s.writers| && s.writers[w] == Putting(jobs, done) && |done| < |jobs| && c.block == jobs[|done|].block
    requires pc == if |done| + 1 == |jobs| then Recording(jobs, done + [c], 0) else Putting(jobs, done + [c])
    ensures var p, p', one := Shares(s), Shares(Shift(s, w, pc)), multiset{c.block};
      && c.block in p.waiting
      && p' == if c.error.None? then p.(waiting := p.waiting - one, putOk := p.putOk + one)
                                else p.(waiting := p.waiting - one, putErr := p.putErr + one)
  {
    hide PartsOf, Gather, Tally, UnputOf, PutOkOf, PutErrOf;
    var one := multiset{c.block};
    PutMovesOne(jobs, done, c, pc);
    var ok, err := if c.error.None? then one else multiset{}, if c.error.Some? then one else multiset{};
    AnswerShare(s.write.queue, s.workers, s.writers, w, pc, ok, err);
    assert c.block in ok + err;
    EmptyBags(Shares(s).waiting, if c.error.None? then Shares(s).putErr else Shares(s).putOk);
    EmptyBags(Shares(s).waiting - one, Shares(s).putErr);
  }

  lemma PutKeepsFaithful(env: Env, s: State, w: nat, jobs: seq<Job>, done: seq<Completion>, answer: WriteAnswer)
    requires Books(env, s.ledger, Shares(s)) && Faithful(env, s.ledger, Shares(s))
    requires w < |s.writers| && s.writers[w] == Putting(jobs, done) && |done| < |jobs| && JobsGenuine(env, jobs)
    requires PutAllowed(env, jobs[|done|].block, answer)
    ensures var s' := PutStep(env, s, w, jobs, done, answer); Faithful(env, s'.ledger, Shares(s'))
  {
    hide Books, Faithful, Shares;
    var s', job := PutStep(env, s, w, jobs, done, answer), jobs[|done|];
    var error := if answer.PutFailed? then Some(answer.message) else None;
    PutShare(s, w, jobs, done, Completion(job.block, |job.bytes|, job.countAsCopied, error), s'.writers[w]);
    SharesIgnoreLedger(Shift(s, w, s'.writers[w]), s');
    assert GenuineJob(env, job);
    if error.None? {
      LandKeepsFaithful(env, s.ledger, Shares(s), Shares(s'), job.block);
    } else {
      RefuseKeepsFaithful(env, s.ledger, Shares(s), job.block);
    }
  }

  lemma RecordKeepsFaithful(env: Env, s: State, w: nat, jobs: seq<Job>, done: seq<Completion>, next: nat)
    requires Books(env, s.ledger, Shares(s)) && Faithful(env, s.ledger, Shares(s))
    requires w < |s.writers| && s.writers[w] == Recording(jobs, done, next) && next < |done| && AsPredicted(env, done)
    requires done[next].countAsCopied <==> env.limits.mode == WriteQueue.ReadBeforeWrite
    ensures var s' := RecordStep(s, w, jobs, done, next); Faithful(env, s'.ledger, Shares(s'))
  {
    hide Books, Faithful, PartsOf, Gather, Tally, Settle;
    var s', c := RecordStep(s, w, jobs, done, next), done[next];
    DoneShrinks(done, next, false);
    DoneShrinks(done, next, true);
    SettleShare(s.write.queue, s.workers, s.writers, w, s'.writers[w], c);
    SettleKeepsFaithful(env, s.ledger, Shares(s), c);
  }

  lemma QuietWriteKeepsFaithful(env: Env, s: State, w: nat, answer: WriteAnswer)
    requires Faithful(env, s.ledger, Shares(s)) && CanWrite(env, s, w, answer)
    requires s.writers[w].Releasing? || s.writers[w].Checkpointing? || s.writers[w].FinishingCheckpoint?
      || s.writers[w].ReportingFailure? || s.writers[w].RaisingStop?
    ensures var s' := WriteStep(env, s, w, answer); Faithful(env, s'.ledger, Shares(s'))
  {
    hide Faithful, PartsOf, Gather, Tally, SeekStep, PublishStep, PutStep, RecordStep, Discard;
    var s' := WriteStep(env, s, w, answer);
    QuietShare(s.write.queue, s.workers, s.writers, w, s'.writers[w]);
    QuietKeepsFaithful(env, s.ledger, Shares(s), s'.ledger, Shares(s'));
  }

  lemma SeekKeepsFaithful(env: Env, s: State, w: nat)
    requires Faithful(env, s.ledger, Shares(s)) && w < |s.writers| && s.writers[w] == Seeking
    ensures var s' := SeekStep(env, s, w); Faithful(env, s'.ledger, Shares(s'))
  {
    hide Faithful, PartsOf, Gather, Tally, WriteQueue.NextAction;
    match WriteQueue.NextAction(env.limits, s.write, s.stop, s.capability)
    case Take(k) => if k <= |s.write.queue| { TakeShare(s.write.queue, s.workers, s.writers, w, k); }
    case RunCheckpoint => QuietShare(s.write.queue, s.workers, s.writers, w, Checkpointing);
    case Exit => QuietShare(s.write.queue, s.workers, s.writers, w, Returned);
    case Wait =>
  }

  lemma ClearKeepsFaithful(env: Env, s: State, s': State)
    requires Books(env, s.ledger, Shares(s)) && Faithful(env, s.ledger, Shares(s))
    requires s'.write.queue == [] && s'.workers == s.workers && s'.writers == s.writers
    requires s'.ledger == Discard(s.ledger, s.write.queue)
    ensures Faithful(env, s'.ledger, Shares(s'))
  {
    hide Books, Faithful, Discard;
    var p, q, rest := Shares(s), BlocksOf(s.write.queue), Gather(s.writers, UnputOf);
    assert p.waiting == q + rest;
    DiscardKeepsFaithful(env, s.ledger, p, s.write.queue);
    assert multiset{} + rest == (q + rest) - q;
    assert Shares(s') == p.(waiting := p.waiting - q);
  }

  lemma WriteKeepsFaithful(env: Env, s: State, w: nat, answer: WriteAnswer)
    requires Predicted(env, s) && Accounts(env, s) && Shapes(s.writers, s.capability) && CanWrite(env, s, w, answer)
    ensures var s' := WriteStep(env, s, w, answer); Faithful(env, s'.ledger, Shares(s'))
  {
    assert JobsGenuine(env, LoadOf(s.writers[w])) && AsPredicted(env, DoneOf(s.writers[w]));
    hide Books, Faithful, PartsOf, SeekStep, PublishStep, PutStep, RecordStep, JobsGenuine, HandsExpected;
    match s.writers[w] {
      case Seeking => SeekKeepsFaithful(env, s, w);
      case Publishing(jobs) => PublishKeepsFaithful(env, s, w, jobs, answer);
      case Putting(jobs, done) => PutKeepsFaithful(env, s, w, jobs, done, answer);
      case Recording(jobs, done, next) =>
        RecordedMode(env, s, w);
        RecordKeepsFaithful(env, s, w, jobs, done, next);
      case FailingCheckpoint =>
        hide Discard;
        QuietShare(s.write.queue, s.workers, s.writers, w, Seeking);
        ClearKeepsFaithful(env, Shift(s, w, Seeking), WriteStep(env, s, w, answer));
      case Returned =>
      case _ => QuietWriteKeepsFaithful(env, s, w, answer);
    }
  }

  lemma WriteKeepsAnswered(env: Env, s: State, w: nat, answer: WriteAnswer)
    requires CanWrite(env, s, w, answer) && AsPredicted(env, DoneOf(s.writers[w]))
    requires Orderly(env) && s.writers[w].Publishing? && OffersBatch(s.writers[w].jobs, s.capability) ==>
      !answer.BatchFailed?
    ensures var s' := WriteStep(env, s, w, answer); w < |s'.writers| && AsPredicted(env, DoneOf(s'.writers[w]))
  {
    hide LandAll, LandSome, Discard, SeekStep;
    if s.writers[w].Seeking? { SeekHasNothingDone(env, s, w); }
  }

  lemma SeekHasNothingDone(env: Env, s: State, w: nat)
    requires w < |s.writers| && s.writers[w] == Seeking
    ensures w < |SeekStep(env, s, w).writers| && DoneOf(SeekStep(env, s, w).writers[w]) == []
  {
  }

  lemma WriteKeepsHands(env: Env, s: State, w: nat, answer: WriteAnswer)
    requires Predicted(env, s) && Books(env, s.ledger, Shares(s)) && CanWrite(env, s, w, answer)
    ensures HandsExpected(env, WriteStep(env, s, w, answer))
  {
    hide HandExpected, AsPredicted, Books, Faithful, Shares, Orderly;
    WriteShiftsOne(env, s, w, answer);
    if Orderly(env) && s.writers[w].Publishing? && OffersBatch(s.writers[w].jobs, s.capability) {
      PublishedIsWaiting(s, w, s.writers[w].jobs);
      OrderlyTakesBatches(env, s.ledger, Shares(s), s.writers[w].jobs, answer);
    }
    WriteKeepsAnswered(env, s, w, answer);
    hide WriteStep;
  }

  /** The destination is accounted for after every step of every thread, whatever the
      stores answer, and an orderly one is as predicted. */
  lemma StepKeepsPredicted(env: Env, s: State, e: Event)
    requires Predicted(env, s) && Accounts(env, s) && Within(env, s) && Control(env, s) && Frontal(env, s)
    requires Enabled(env, s, e)
    ensures Predicted(env, Apply(env, s, e))
  {
    hide Books, Frontal, Shares, Faithful, Honest, Within, WorkCtl, WriteCtl, EndCtl, Shapes, TraverseStep;
    hide WriteStep, CanTraverse, CanWrite;
    match e
    case Traverse(i, sawStop, check) =>
      TraverseKeepsFaithful(env, s, i, sawStop, check);
      TraverseKeepsHands(env, s, i, sawStop, check);
    case Write(w, answer) =>
      WriteKeepsFaithful(env, s, w, answer);
      WriteKeepsHands(env, s, w, answer);
    case FinishProducing(sawStop) => ClosingKeepsPredicted(env, s, FinishProducingStep(s, sawStop));
    case Interrupt(sawStop) => ClosingKeepsPredicted(env, s, InterruptStep(s, sawStop));
  }

  lemma ClosingKeepsPredicted(env: Env, s: State, s': State)
    requires Predicted(env, s) && Books(env, s.ledger, Shares(s))
    requires s'.workers == s.workers && s'.writers == s.writers
    requires (s'.write.queue == s.write.queue && s'.ledger == s.ledger)
          || (s'.write.queue == [] && s'.ledger == Discard(s.ledger, s.write.queue))
    ensures Predicted(env, s')
  {
    hide Books, Faithful, PartsOf, Discard;
    if s'.write.queue == [] && s'.ledger == Discard(s.ledger, s.write.queue) {
      ClearKeepsFaithful(env, s, s');
    }
  }
}
