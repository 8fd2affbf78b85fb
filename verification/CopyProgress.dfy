/** Liveness of the multi-worker copy: no reachable state is stuck before every thread has
    returned, and every schedule ends within a bound computed from the inputs. */
module CopyProgress {
  import opened Options
  import opened BlockGraph
  import opened Tallies
  import opened Ledger
  import opened Destination
  import opened CopyProtocol
  import opened CopyControl
  import WorkQueue
  import WriteQueue

  // ----------------------------------------------------------- what the workers hold

  function ItemsIn(pc: TraversalPc): set<Item> {
    match pc
    case Noting(item) => {item}
    case Visiting(item) => {item}
    case Reading(item) => {item}
    case Decoding(item) => {item}
    case Spreading(item) => {item}
    case _ => {}
  }

  predicate HandReadable(source: Source, pc: TraversalPc) {
    match pc
    case Decoding(item) => Readable(source, item.block)
    case Spreading(item) => Readable(source, item.block)
    case Checking(b) => Readable(source, b)
    case Skipping(b) => Readable(source, b)
    case FailingCheck(b, _) => Readable(source, b)
    case Submitting(b) => Readable(source, b)
    case _ => true
  }

  ghost predicate QueueWithin(u: set<BlockId>, queue: seq<Item>) {
    forall item :: item in queue ==> item.block in u
  }

  ghost predicate HandsWithin(u: set<BlockId>, workers: seq<TraversalPc>) {
    forall i, item :: 0 <= i < |workers| && item in ItemsIn(workers[i]) ==> item.block in u
  }

  ghost predicate HandsReadable(source: Source, workers: seq<TraversalPc>) {
    forall i :: 0 <= i < |workers| ==> HandReadable(source, workers[i])
  }

  /** All work is about blocks of the universe, and only read blocks are passed on. */
  ghost predicate Within(env: Env, s: State) {
    && QueueWithin(Universe(env.source, env.roots), s.work.queue)
    && HandsWithin(Universe(env.source, env.roots), s.workers)
    && HandsReadable(env.source, s.workers)
  }

  lemma InitialWithin(env: Env, workerCount: nat)
    ensures Within(env, Initial(env, workerCount))
  {
  }

  lemma SpreadKeepsQueueWithin(env: Env, queue: seq<Item>, item: Item)
    requires QueueWithin(Universe(env.source, env.roots), queue) && Readable(env.source, item.block)
    ensures var items := WorkQueue.Items(item.root, ChildrenOf(env.source, item.block));
      QueueWithin(Universe(env.source, env.roots), queue + items)
  {
    var ids := ChildrenOf(env.source, item.block);
    var items := WorkQueue.Items(item.root, ids);
    forall it | it in items ensures it.block in Universe(env.source, env.roots) {
      var j :| 0 <= j < |items| && items[j] == it;
      assert item.block in env.source && it.block == ids[j] && it.block in ChildrenOf(env.source, item.block);
    }
  }

  lemma TraverseKeepsQueueWithin(env: Env, s: State, i: nat, sawStop: bool, check: CheckAnswer)
    requires Within(env, s) && CanTraverse(env, s, i, sawStop, check)
    ensures QueueWithin(Universe(env.source, env.roots), TraverseStep(env, s, i, sawStop, check).work.queue)
  {
    hide Universe, HandsWithin;
    match s.workers[i] {
      case Spreading(item) =>
        assert HandReadable(env.source, s.workers[i]);
        SpreadKeepsQueueWithin(env, s.work.queue, item);
      case _ =>
    }
  }

  lemma TraverseKeepsHands(env: Env, s: State, i: nat, sawStop: bool, check: CheckAnswer)
    requires Within(env, s) && CanTraverse(env, s, i, sawStop, check)
    ensures var s' := TraverseStep(env, s, i, sawStop, check);
      |s'.workers| == |s.workers| && HandReadable(env.source, s'.workers[i])
      && forall item :: item in ItemsIn(s'.workers[i]) ==> item.block in Universe(env.source, env.roots)
  {
    hide Universe, Decode, FailRead, CountRead, Visit, Abandon, SkipPresent, FailCheck, NoteAt, CountAttempt;
    hide WorkQueue.FinishItem, WorkQueue.EnqueueChildren, WriteQueue.Enqueue, WriteQueue.Admit, JobFor, CheckAllowed;
    assert HandReadable(env.source, s.workers[i]);
    forall item | item in ItemsIn(s.workers[i]) ensures item.block in Universe(env.source, env.roots) { }
    if s.work.queue != [] { assert s.work.queue[0] in s.work.queue; }
  }

  lemma TraverseKeepsWithin(env: Env, s: State, i: nat, sawStop: bool, check: CheckAnswer)
    requires Within(env, s) && CanTraverse(env, s, i, sawStop, check)
    ensures Within(env, TraverseStep(env, s, i, sawStop, check))
  {
    hide QueueWithin, Universe;
    var s' := TraverseStep(env, s, i, sawStop, check);
    TraverseKeepsQueueWithin(env, s, i, sawStop, check);
    TraverseKeepsHands(env, s, i, sawStop, check);
    TraverseMovesOne(env, s, i, sawStop, check);
    MoveKeepsHands(env, s.workers, i, s'.workers[i]);
  }

  lemma MoveKeepsHands(env: Env, workers: seq<TraversalPc>, i: nat, pc: TraversalPc)
    requires i < |workers| && HandsWithin(Universe(env.source, env.roots), workers)
    requires HandsReadable(env.source, workers)
    requires HandReadable(env.source, pc)
    requires forall item :: item in ItemsIn(pc) ==> item.block in Universe(env.source, env.roots)
    ensures HandsWithin(Universe(env.source, env.roots), workers[i := pc])
    ensures HandsReadable(env.source, workers[i := pc])
  {
    hide Universe;
  }

  lemma TraverseMovesOne(env: Env, s: State, i: nat, sawStop: bool, check: CheckAnswer)
    requires CanTraverse(env, s, i, sawStop, check)
    ensures var s' := TraverseStep(env, s, i, sawStop, check);
      && |s'.workers| == |s.workers| && s'.workers == s.workers[i := s'.workers[i]]
      && s' == s.(workers := s'.workers, work := s'.work, write := s'.write, ledger := s'.ledger)
  {
  }

  /** Writers, the caller and the interrupt watcher leave the traversal's hands alone. */
  lemma StepKeepsWithin(env: Env, s: State, e: Event)
    requires Within(env, s) && Enabled(env, s, e)
    ensures Within(env, Apply(env, s, e))
  {
    hide QueueWithin, HandsWithin, HandsReadable;
    match e
    case Traverse(i, sawStop, check) => TraverseKeepsWithin(env, s, i, sawStop, check);
    case Write(w, answer) => WriteShiftsOne(env, s, w, answer);
    case _ =>
  }

  lemma WriteShiftsOne(env: Env, s: State, w: nat, answer: WriteAnswer)
    requires CanWrite(env, s, w, answer)
    ensures var s' := WriteStep(env, s, w, answer);
      && |s'.writers| == |s.writers| && s'.writers == s.writers[w := s'.writers[w]]
      && s' == s.(writers := s'.writers, write := s'.write, ledger := s'.ledger, capability := s'.capability,
          stop := s'.stop)
      && s'.ledger.visited == s.ledger.visited
  {
    match s.writers[w] {
      case Publishing(jobs) =>
        LandAllFrame(env, s.ledger, jobs);
        if answer.BatchFailed? { LandSomeFrame(env, s.ledger, jobs, answer.landed); }
      case FailingCheckpoint => DiscardFrame(s.ledger, s.write.queue);
      case _ =>
    }
  }

  // ------------------------------------------------------------- deadlock freedom

  predicate WorkerBusy(pc: TraversalPc) { !pc.Idle? && !pc.Submitting? && !pc.Done? }

  predicate WriterBusy(pc: WriterPc) { !pc.Seeking? && !pc.Returned? }

  lemma BusyWorkerMoves(env: Env, s: State, i: nat) returns (e: Event)
    requires i < |s.workers| && WorkerBusy(s.workers[i])
    ensures Enabled(env, s, e) && e.Traverse?
  {
    var check := Absent;
    if s.workers[i].Checking? {
      var b := s.workers[i].block;
      check := if b in env.checkErrors then CheckError(env.checkErrors[b])
               else if b in s.ledger.blocks then InPlace else Absent;
    }
    e := Traverse(i, false, check);
  }

  lemma BatchCallAnswered(env: Env, jobs: seq<Job>) returns (answer: WriteAnswer)
    ensures BatchAllowed(env, jobs, answer)
  {
    if env.store.Predictable? && env.store.batches {
      if j :| 0 <= j < |jobs| && jobs[j].block in env.store.writeErrors {
        answer := BatchFailed("", {});
      } else {
        answer := BatchOk;
      }
    } else if FixedSupport(env.store) == Some(true) {
      answer := BatchOk;
    } else {
      answer := BatchUnsupported;
    }
  }

  lemma BusyWriterMoves(env: Env, s: State, w: nat) returns (e: Event)
    requires Shapes(s.writers, s.capability) && w < |s.writers| && WriterBusy(s.writers[w])
    ensures Enabled(env, s, e) && !e.Interrupt?
  {
    assert ShapeOf(s.writers[w], s.capability);
    var answer := Silent;
    match s.writers[w] {
      case Publishing(jobs) => answer := BatchCallAnswered(env, jobs);
      case Putting(jobs, done) =>
        var b := jobs[|done|].block;
        var fails := env.store.Predictable? && b in env.store.writeErrors;
        answer := if fails then PutFailed(env.store.writeErrors[b]) else PutOk;
      case Checkpointing => answer := CheckpointOk;
      case _ =>
    }
    e := Write(w, answer);
  }

  ghost predicate CalmWriters(writers: seq<WriterPc>) {
    forall w :: 0 <= w < |writers| ==> !WriterBusy(writers[w])
  }

  lemma CalmIsInactive(l: WriteQueue.Limits, q: WriteQueue.State, capability: WriteQueue.Capability,
                       writers: seq<WriterPc>)
    requires WriteCtl(l, q, capability, writers) && CalmWriters(writers)
    ensures q.activeWrites == 0 && !q.checkpointRunning
  {
    TallyZero(Loads(writers), WriteQueue.Len);
    TallyZero(writers, InCheckpoint);
  }

  /** With the writers calm, one that has not returned can act as soon as there is
      anything to act on. */
  lemma CalmWriterMoves(env: Env, s: State, w: nat) returns (e: Event)
    requires WriteCtl(env.limits, s.write, s.capability, s.writers) && CalmWriters(s.writers)
    requires w < |s.writers| && s.writers[w] == Seeking
    requires s.write.queue != [] || s.write.checkpointPending || s.write.producersFinished || s.write.shutdown || s.stop
    ensures Enabled(env, s, e) && !e.Interrupt?
  {
    CalmIsInactive(env.limits, s.write, s.capability, s.writers);
    e := Write(w, Silent);
  }

  lemma SubmitterMoves(env: Env, s: State, i: nat) returns (e: Event)
    requires Control(env, s) && Within(env, s) && CalmWriters(s.writers)
    requires i < |s.workers| && s.workers[i].Submitting?
    ensures Enabled(env, s, e) && !e.Interrupt?
  {
    assert HandReadable(env.source, s.workers[i]);
    var job := JobFor(env, s.workers[i].block);
    if WriteQueue.Admit(env.limits, s.write, job, s.stop) != WriteQueue.MustWait {
      e := Traverse(i, false, Absent);
    } else {
      CalmIsInactive(env.limits, s.write, s.capability, s.writers);
      assert s.writers[0] == Seeking;
      e := CalmWriterMoves(env, s, 0);
    }
  }

  lemma AllIdleMoves(env: Env, s: State, i: nat) returns (e: Event)
    requires Control(env, s) && i < |s.workers| && s.workers[i].Idle?
    requires forall j :: 0 <= j < |s.workers| ==> s.workers[j].Idle? || s.workers[j].Done?
    ensures Enabled(env, s, e) && e.Traverse?
  {
    TallyZero(s.workers, HoldsItem);
    e := Traverse(i, false, Absent);
  }

  /** Deadlock freedom: until every thread has returned, some thread other than the
      interrupt watcher has an enabled step, whatever the checkpoint, the limits, a
      shutdown or a stop are doing. */
  lemma SomeThreadCanMove(env: Env, s: State) returns (e: Event)
    requires Control(env, s) && Within(env, s) && !Final(s)
    ensures Enabled(env, s, e) && !e.Interrupt?
  {
    if i :| 0 <= i < |s.workers| && WorkerBusy(s.workers[i]) {
      e := BusyWorkerMoves(env, s, i);
    } else if w :| 0 <= w < |s.writers| && WriterBusy(s.writers[w]) {
      e := BusyWriterMoves(env, s, w);
    } else if i :| 0 <= i < |s.workers| && s.workers[i].Submitting? {
      e := SubmitterMoves(env, s, i);
    } else if i :| 0 <= i < |s.workers| && s.workers[i].Idle? {
      e := AllIdleMoves(env, s, i);
    } else if s.main == JoiningWorkers {
      e := FinishProducing(false);
    } else {
      var w :| 0 <= w < |s.writers| && s.writers[w] != Returned;
      e := CalmWriterMoves(env, s, w);
    }
  }

  // ------------------------------------------------------------- bounded schedules

  ghost function MaxDegree(source: Source): (d: nat)
    ensures forall b :: |ChildrenOf(source, b)| <= d
    decreases |source|
  {
    if source == map[] then 0 else
      var b :| b in source;
      var rest := MaxDegree(source - {b});
      assert forall x :: x != b ==> ChildrenOf(source, x) == ChildrenOf(source - {b}, x);
      if |ChildrenOf(source, b)| > rest then |ChildrenOf(source, b)| else rest
  }

  /** How many steps a thread may still take on its own account. */
  function WorkerRank(d: nat, pc: TraversalPc): nat {
    match pc
    case Done => 0
    case Idle => 1
    case Finishing => 2
    case CountingAttempt => 3
    case Skipping(_) => 3
    case FailingCheck(_, _) => 3
    case Visiting(_) => 3
    case Noting(_) => 4
    case Submitting(_) => 14
    case Checking(_) => 15
    case Spreading(_) => 16 + 4 * d
    case Decoding(_) => 17 + 4 * d
    case Reading(_) => 18 + 4 * d
  }

  function RankWith(d: nat): TraversalPc -> nat { pc => WorkerRank(d, pc) }

  function WriterRank(pc: WriterPc): nat {
    match pc
    case Returned => 0
    case Seeking => 1
    case Publishing(jobs) => 2 * |jobs| + 3
    case Putting(jobs, done) => if |done| <= 2 * |jobs| then 2 * |jobs| + 2 - |done| else 0
    case Recording(jobs, done, next) => if next <= |jobs| then |jobs| + 2 - next else 0
    case Releasing(_) => 2
    case Checkpointing => 5
    case ReportingFailure(_) => 4
    case RaisingStop => 3
    case FailingCheckpoint => 2
    case FinishingCheckpoint => 2
  }

  function VisitCost(d: nat): nat { 16 + 4 * d }

  function Unvisited(env: Env, s: State): set<BlockId> { Universe(env.source, env.roots) - s.ledger.visited }

  function VisitBudget(d: nat, unvisited: set<BlockId>): nat { VisitCost(d) * |unvisited| }

  function QueueCost(s: State): nat {
    4 * |s.work.queue| + 5 * |s.write.queue| + if s.write.checkpointPending then 5 else 0
  }

  function EndCost(s: State): nat {
    (if s.main == JoiningWorkers then 1 else 0)
    + match s.interrupter { case Watching => 3 case ClosingWork => 2 case ClosingWrites => 1 case Quiet => 0 }
  }

  function Measure(env: Env, d: nat, s: State): nat {
    VisitBudget(d, Unvisited(env, s)) + QueueCost(s) + EndCost(s)
    + Tally(s.workers, RankWith(d)) + Tally(s.writers, WriterRank)
  }

  lemma VisitSaves(d: nat, u: set<BlockId>, visited: set<BlockId>, b: BlockId)
    requires b in u && b !in visited
    ensures VisitBudget(d, u - (visited + {b})) + VisitCost(d) == VisitBudget(d, u - visited)
  {
    assert u - (visited + {b}) == (u - visited) - {b};
    assert |u - visited| == |(u - visited) - {b}| + 1;
  }

  /** The step pays for what it queues; a first visit is paid for separately. */
  ghost predicate Pays(d: nat, s: State, s': State, i: nat)
    requires i < |s.workers|
  {
    && |s'.workers| == |s.workers|
    && QueueCost(s') + WorkerRank(d, s'.workers[i])
     < QueueCost(s) + WorkerRank(d, s.workers[i]) + (if s'.ledger.visited != s.ledger.visited then VisitCost(d) else 0)
  }

  lemma TraversePays(env: Env, d: nat, s: State, i: nat, sawStop: bool, check: CheckAnswer)
    requires CanTraverse(env, s, i, sawStop, check)
    requires forall b :: |ChildrenOf(env.source, b)| <= d
    ensures Pays(d, s, TraverseStep(env, s, i, sawStop, check), i)
  {
    hide Pays, PopStep, VisitStep, ReadStep, SpreadStep, CheckStep, SubmitStep;
    match s.workers[i] {
      case Idle => PopPays(d, s, i);
      case Visiting(item) => VisitPays(d, s, i, item);
      case Reading(item) => ReadPays(env, d, s, i, item);
      case Spreading(item) => SpreadPays(env, d, s, i, item, sawStop);
      case Checking(b) => CheckPays(d, s, i, b, sawStop, check);
      case Submitting(b) => SubmitPays(env, d, s, i, b);
      case Done =>
      case _ => PlainStepPays(env, d, s, i, sawStop, check);
    }
  }

  lemma PopPays(d: nat, s: State, i: nat)
    requires i < |s.workers| && s.workers[i] == Idle && WorkQueue.Pop(s.work, s.stop) != WorkQueue.MustWait
    ensures Pays(d, s, PopStep(s, i), i)
  {
  }

  lemma VisitPays(d: nat, s: State, i: nat, item: Item)
    requires i < |s.workers| && s.workers[i] == Visiting(item)
    ensures Pays(d, s, VisitStep(s, i, item), i)
  {
  }

  lemma ReadPays(env: Env, d: nat, s: State, i: nat, item: Item)
    requires i < |s.workers| && s.workers[i] == Reading(item)
    ensures Pays(d, s, ReadStep(env, s, i, item), i)
  {
  }

  lemma SpreadPays(env: Env, d: nat, s: State, i: nat, item: Item, sawStop: bool)
    requires i < |s.workers| && s.workers[i] == Spreading(item) && |ChildrenOf(env.source, item.block)| <= d
    ensures Pays(d, s, SpreadStep(env, s, i, item, sawStop), i)
  {
  }

  lemma CheckPays(d: nat, s: State, i: nat, b: BlockId, sawStop: bool, check: CheckAnswer)
    requires i < |s.workers| && s.workers[i] == Checking(b)
    ensures Pays(d, s, CheckStep(s, i, b, sawStop, check), i)
  {
  }

  lemma SubmitPays(env: Env, d: nat, s: State, i: nat, b: BlockId)
    requires i < |s.workers| && s.workers[i] == Submitting(b) && Readable(env.source, b)
    requires WriteQueue.Admit(env.limits, s.write, JobFor(env, b), s.stop) != WriteQueue.MustWait
    ensures Pays(d, s, SubmitStep(env, s, i, b), i)
  {
  }

  lemma PlainStepPays(env: Env, d: nat, s: State, i: nat, sawStop: bool, check: CheckAnswer)
    requires CanTraverse(env, s, i, sawStop, check)
    requires s.workers[i].Noting? || s.workers[i].Decoding? || s.workers[i].Skipping? || s.workers[i].FailingCheck?
          || s.workers[i].CountingAttempt? || s.workers[i].Finishing?
    ensures Pays(d, s, TraverseStep(env, s, i, sawStop, check), i)
  {
    hide PopStep, VisitStep, ReadStep, SpreadStep, CheckStep, SubmitStep;
  }

  lemma TraverseDecreases(env: Env, d: nat, s: State, i: nat, sawStop: bool, check: CheckAnswer)
    requires Within(env, s) && CanTraverse(env, s, i, sawStop, check)
    requires forall b :: |ChildrenOf(env.source, b)| <= d
    ensures Measure(env, d, TraverseStep(env, s, i, sawStop, check)) < Measure(env, d, s)
  {
    var s' := TraverseStep(env, s, i, sawStop, check);
    TraverseMovesOne(env, s, i, sawStop, check);
    TallyUpdate(s.workers, i, s'.workers[i], RankWith(d));
    TraversePays(env, d, s, i, sawStop, check);
    VisitBudgetStep(env, d, s, i, sawStop, check);
    hide TraverseStep, QueueCost, VisitBudget, VisitCost, Within, WorkerRank;
    assert RankWith(d)(s.workers[i]) == WorkerRank(d, s.workers[i]);
    assert RankWith(d)(s'.workers[i]) == WorkerRank(d, s'.workers[i]);
  }

  lemma VisitBudgetStep(env: Env, d: nat, s: State, i: nat, sawStop: bool, check: CheckAnswer)
    requires Within(env, s) && CanTraverse(env, s, i, sawStop, check)
    ensures var s' := TraverseStep(env, s, i, sawStop, check);
      VisitBudget(d, Unvisited(env, s')) + (if s'.ledger.visited != s.ledger.visited then VisitCost(d) else 0)
      == VisitBudget(d, Unvisited(env, s))
  {
    hide VisitBudget, VisitCost, Universe, QueueWithin, HandsReadable;
    if s.workers[i].Visiting? {
      var item := s.workers[i].item;
      assert item in ItemsIn(s.workers[i]);
      if item.block !in s.ledger.visited {
        VisitSaves(d, Universe(env.source, env.roots), s.ledger.visited, item.block);
      }
    }
  }

  /** A write worker's step pays for itself out of the jobs and the checkpoint it takes. */
  lemma WritePays(env: Env, s: State, w: nat, answer: WriteAnswer)
    requires Control(env, s) && CanWrite(env, s, w, answer)
    ensures var s' := WriteStep(env, s, w, answer);
      |s'.writers| == |s.writers| && QueueCost(s') + WriterRank(s'.writers[w]) < QueueCost(s) + WriterRank(s.writers[w])
  {
    hide WorkCtl, WriteCtl, EndCtl, QueueCost, WriterRank, Aligned, SeekStep, PublishStep, PutStep, RecordStep;
    assert ShapeOf(s.writers[w], s.capability);
    match s.writers[w] {
      case Seeking => SeekPays(env, s, w);
      case Publishing(jobs) => PublishPays(env, s, w, jobs, answer);
      case Putting(jobs, done) => PutPays(env, s, w, jobs, done, answer);
      case Recording(jobs, done, next) => RecordPays(s, w, jobs, done, next);
      case _ => SettlePays(env, s, w, answer);
    }
  }

  lemma PublishPays(env: Env, s: State, w: nat, jobs: seq<Job>, answer: WriteAnswer)
    requires w < |s.writers| && s.writers[w] == Publishing(jobs)
    ensures var s' := PublishStep(env, s, w, jobs, answer);
      |s'.writers| == |s.writers| && QueueCost(s') + WriterRank(s'.writers[w]) < QueueCost(s) + WriterRank(s.writers[w])
  {
  }

  lemma PutPays(env: Env, s: State, w: nat, jobs: seq<Job>, done: seq<Completion>, answer: WriteAnswer)
    requires w < |s.writers| && s.writers[w] == Putting(jobs, done) && |done| < |jobs|
    ensures var s' := PutStep(env, s, w, jobs, done, answer);
      |s'.writers| == |s.writers| && QueueCost(s') + WriterRank(s'.writers[w]) < QueueCost(s) + WriterRank(s.writers[w])
  {
  }

  lemma RecordPays(s: State, w: nat, jobs: seq<Job>, done: seq<Completion>, next: nat)
    requires w < |s.writers| && s.writers[w] == Recording(jobs, done, next) && next < |done| == |jobs|
    ensures var s' := RecordStep(s, w, jobs, done, next);
      |s'.writers| == |s.writers| && QueueCost(s') + WriterRank(s'.writers[w]) < QueueCost(s) + WriterRank(s.writers[w])
  {
  }

  lemma SettlePays(env: Env, s: State, w: nat, answer: WriteAnswer)
    requires CanWrite(env, s, w, answer)
    requires !s.writers[w].Seeking? && !s.writers[w].Publishing? && !s.writers[w].Putting? && !s.writers[w].Recording?
    ensures var s' := WriteStep(env, s, w, answer);
      |s'.writers| == |s.writers| && QueueCost(s') + WriterRank(s'.writers[w]) < QueueCost(s) + WriterRank(s.writers[w])
  {
    hide SeekStep, PublishStep, PutStep, RecordStep, Discard, FailStore, WriteQueue.TotalBytes;
  }

  lemma SeekPays(env: Env, s: State, w: nat)
    requires WriteCtl(env.limits, s.write, s.capability, s.writers)
    requires w < |s.writers| && s.writers[w] == Seeking
    requires WriteQueue.NextAction(env.limits, s.write, s.stop, s.capability) != WriteQueue.Wait
    ensures var s' := SeekStep(env, s, w);
      |s'.writers| == |s.writers| && QueueCost(s') + WriterRank(s'.writers[w]) < QueueCost(s) + WriterRank(s.writers[w])
  {
    if WriteQueue.NextAction(env.limits, s.write, s.stop, s.capability).Take? {
      TakeKeepsWriteCtl(env, s, w);
    }
    hide WriteCtl;
  }

  lemma WriteDecreases(env: Env, d: nat, s: State, w: nat, answer: WriteAnswer)
    requires Control(env, s) && CanWrite(env, s, w, answer)
    ensures Measure(env, d, WriteStep(env, s, w, answer)) < Measure(env, d, s)
  {
    hide Control, QueueCost, WriterRank, VisitBudget;
    var s' := WriteStep(env, s, w, answer);
    WriteShiftsOne(env, s, w, answer);
    WritePays(env, s, w, answer);
    TallyUpdate(s.writers, w, s'.writers[w], WriterRank);
    hide WriteStep;
  }

  lemma StepDecreases(env: Env, d: nat, s: State, e: Event)
    requires Control(env, s) && Within(env, s) && Enabled(env, s, e)
    requires forall b :: |ChildrenOf(env.source, b)| <= d
    ensures Measure(env, d, Apply(env, s, e)) < Measure(env, d, s)
  {
    hide Control, Within, Measure, TraverseStep, WriteStep, CanTraverse, CanWrite;
    match e
    case Traverse(i, sawStop, check) => TraverseDecreases(env, d, s, i, sawStop, check);
    case Write(w, answer) => WriteDecreases(env, d, s, w, answer);
    case FinishProducing(sawStop) => FinishingDecreases(env, d, s, sawStop);
    case Interrupt(sawStop) => InterruptDecreases(env, d, s, sawStop);
  }

  lemma FinishingDecreases(env: Env, d: nat, s: State, sawStop: bool)
    requires CanFinishProducing(s, sawStop)
    ensures Measure(env, d, FinishProducingStep(s, sawStop)) < Measure(env, d, s)
  {
    hide VisitBudget, Tally;
    DiscardFrame(s.ledger, s.write.queue);
  }

  lemma InterruptDecreases(env: Env, d: nat, s: State, sawStop: bool)
    requires CanInterrupt(s, sawStop)
    ensures Measure(env, d, InterruptStep(s, sawStop)) < Measure(env, d, s)
  {
    hide VisitBudget, Tally;
    DiscardFrame(s.ledger, s.write.queue);
  }

  lemma {:induction false} RunStaysWithinMeasure(env: Env, d: nat, s: State, events: seq<Event>)
    requires Control(env, s) && Within(env, s) && IsRun(env, s, events)
    requires forall b :: |ChildrenOf(env.source, b)| <= d
    ensures Control(env, RunEnd(env, s, events)) && Within(env, RunEnd(env, s, events))
    ensures |events| + Measure(env, d, RunEnd(env, s, events)) <= Measure(env, d, s)
    decreases |events|
  {
    hide Control, Within, Measure;
    if events != [] {
      StepKeepsControl(env, s, events[0]);
      StepKeepsWithin(env, s, events[0]);
      StepDecreases(env, d, s, events[0]);
      RunStaysWithinMeasure(env, d, Apply(env, s, events[0]), events[1..]);
    }
  }

  ghost function RunBound(env: Env, workerCount: nat): nat {
    VisitCost(MaxDegree(env.source)) * |Universe(env.source, env.roots)| + 4 * |env.roots| + workerCount +
      env.limits.count + 4
  }

  lemma {:induction false} TallyConstant<T>(xs: seq<T>, f: T -> nat)
    requires forall i :: 0 <= i < |xs| ==> f(xs[i]) == 1
    ensures Tally(xs, f) == |xs|
  {
    if xs != [] {
      forall i | 0 <= i < |xs[1..]| ensures f(xs[1..][i]) == 1 { assert xs[1..][i] == xs[i + 1]; }
      TallyConstant(xs[1..], f);
    }
  }

  /** Every schedule, stopped or not, with every answer the stores may give, takes at most
      `RunBound` steps; and where it can go no further, every thread has returned. */
  lemma EveryScheduleEnds(env: Env, workerCount: nat, events: seq<Event>)
    requires WellConfigured(env) && workerCount >= 1 && IsRun(env, Initial(env, workerCount), events)
    ensures |events| <= RunBound(env, workerCount)
    ensures Final(RunEnd(env, Initial(env, workerCount), events))
      || exists e :: Enabled(env, RunEnd(env, Initial(env, workerCount), events), e) && !e.Interrupt?
  {
    var s, d := Initial(env, workerCount), MaxDegree(env.source);
    InitialControl(env, workerCount);
    InitialWithin(env, workerCount);
    RunStaysWithinMeasure(env, d, s, events);
    TallyConstant(s.workers, RankWith(d));
    TallyConstant(s.writers, WriterRank);
    assert Unvisited(env, s) == Universe(env.source, env.roots);
    var end := RunEnd(env, s, events);
    if !Final(end) {
      var e := SomeThreadCanMove(env, end);
    }
  }
}
