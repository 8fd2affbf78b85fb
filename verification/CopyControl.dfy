/** The control part of the multi-worker copy: what every step keeps about the queues, the
    threads and the shutdown, and that some thread can always move until all have returned. */
module CopyControl {
  import opened Tallies
  import opened Ledger
  import opened Destination
  import opened CopyProtocol
  import WorkQueue
  import WriteQueue

  function HoldsItem(pc: TraversalPc): nat {
    if pc.Idle? || pc.Done? then 0 else 1
  }

  /** The batch a write worker has taken and not yet released. */
  function LoadOf(pc: WriterPc): seq<Job> {
    match pc
    case Publishing(jobs) => jobs
    case Putting(jobs, _) => jobs
    case Recording(jobs, _, _) => jobs
    case Releasing(jobs) => jobs
    case _ => []
  }

  function Loads(writers: seq<WriterPc>): seq<seq<Job>> {
    seq(|writers|, w requires 0 <= w < |writers| => LoadOf(writers[w]))
  }

  function InCheckpoint(pc: WriterPc): nat {
    if pc.Checkpointing? || pc.FinishingCheckpoint? || pc.ReportingFailure? || pc.RaisingStop? || pc.FailingCheckpoint?
    then 1 else 0
  }

  // ----------------------------------------------------------------- invariants

  ghost predicate WorkCtl(work: WorkQueue.State, stop: bool, workers: seq<TraversalPc>) {
    && |workers| >= 1
    && work.activeWorkers == Tally(workers, HoldsItem)
    && WorkQueue.EndsWhenDone(work, stop)
    && forall i :: 0 <= i < |workers| && workers[i] == Done ==> work.shutdown
  }

  ghost predicate WriteCtl(l: WriteQueue.Limits, q: WriteQueue.State, capability: WriteQueue.Capability,
                           writers: seq<WriterPc>) {
    && |writers| == l.count
    && WriteQueue.Coherent(l, q, Loads(writers))
    && WriteQueue.OneBatch(capability, Loads(writers))
    && Tally(writers, InCheckpoint) == (if q.checkpointRunning then 1 else 0)
    && (forall w :: 0 <= w < |writers| && writers[w] == Returned ==> q.shutdown)
  }

  /** One completion per job, in job order. */
  ghost predicate Aligned(jobs: seq<Job>, done: seq<Completion>) {
    && |done| <= |jobs|
    && forall k :: 0 <= k < |done| ==>
        && done[k].block == jobs[k].block && done[k].bytesLen == |jobs[k].bytes|
        && done[k].countAsCopied == jobs[k].countAsCopied
  }

  ghost predicate ShapeOf(pc: WriterPc, capability: WriteQueue.Capability) {
    match pc
    case Publishing(jobs) => |jobs| >= 1 && (capability == WriteQueue.Unsupported ==> |jobs| == 1)
    case Putting(jobs, done) => |done| < |jobs| && Aligned(jobs, done)
    case Recording(jobs, done, next) => next < |done| == |jobs| && Aligned(jobs, done)
    case Releasing(jobs) => |jobs| >= 1
    case _ => true
  }

  ghost predicate Shapes(writers: seq<WriterPc>, capability: WriteQueue.Capability) {
    forall w :: 0 <= w < |writers| ==> ShapeOf(writers[w], capability)
  }

  ghost predicate AllDone(workers: seq<TraversalPc>) {
    forall i :: 0 <= i < |workers| ==> workers[i] == Done
  }

  ghost predicate EndCtl(s: State) {
    && (s.write.shutdown ==> s.stop || s.write.producersFinished)
    && (s.write.producersFinished ==> s.stop || s.main == JoiningWriters)
    && (s.main == JoiningWriters ==> AllDone(s.workers) && s.write.producersFinished)
    && (s.interrupter == ClosingWork || s.interrupter == ClosingWrites ==> s.stop)
    && (forall w :: 0 <= w < |s.writers| && s.writers[w] == FailingCheckpoint ==> s.stop)
  }

  ghost predicate Control(env: Env, s: State) {
    && WorkCtl(s.work, s.stop, s.workers)
    && WriteCtl(env.limits, s.write, s.capability, s.writers)
    && Shapes(s.writers, s.capability)
    && EndCtl(s)
  }

  lemma InitialControl(env: Env, workerCount: nat)
    requires WellConfigured(env) && workerCount >= 1
    ensures Control(env, Initial(env, workerCount))
  {
    var s := Initial(env, workerCount);
    TallyZero(s.workers, HoldsItem);
    TallyZero(s.writers, InCheckpoint);
    WriteQueue.InitialIsCoherent(env.limits, Loads(s.writers));
  }

  // ------------------------------------------------------- traversal steps keep it

  lemma MoveKeepsWorkCtl(work: WorkQueue.State, work': WorkQueue.State, stop: bool, workers: seq<TraversalPc>, i: nat,
                         pc: TraversalPc)
    requires WorkCtl(work, stop, workers) && i < |workers|
    requires work'.activeWorkers + HoldsItem(workers[i]) == work.activeWorkers + HoldsItem(pc)
    requires WorkQueue.EndsWhenDone(work', stop) && (work.shutdown || pc == Done ==> work'.shutdown)
    ensures WorkCtl(work', stop, workers[i := pc])
  {
    TallyUpdate(workers, i, pc, HoldsItem);
  }

  /** What a traversal step may do to the work queue's counters. */
  ghost predicate WorkMoves(s: State, s': State, i: nat)
    requires i < |s.workers|
  {
    && i < |s'.workers| && s'.workers == s.workers[i := s'.workers[i]] && s'.stop == s.stop
    && s'.work.activeWorkers + HoldsItem(s.workers[i]) == s.work.activeWorkers + HoldsItem(s'.workers[i])
    && WorkQueue.EndsWhenDone(s'.work, s.stop) && (s.work.shutdown || s'.workers[i] == Done ==> s'.work.shutdown)
  }

  lemma PopMoves(s: State, i: nat)
    requires WorkQueue.EndsWhenDone(s.work, s.stop) && i < |s.workers| && s.workers[i] == Idle
    requires WorkQueue.Pop(s.work, s.stop) != WorkQueue.MustWait
    ensures WorkMoves(s, PopStep(s, i), i)
  {
  }

  lemma FinishMoves(s: State, i: nat)
    requires WorkQueue.EndsWhenDone(s.work, s.stop) && i < |s.workers| && s.workers[i] == Finishing
    requires s.work.activeWorkers > 0
    ensures WorkMoves(s, Move(s.(work := WorkQueue.FinishItem(s.work, s.stop)), i, Idle), i)
  {
  }

  lemma SpreadMoves(env: Env, s: State, i: nat, item: Item, sawStop: bool)
    requires WorkQueue.EndsWhenDone(s.work, s.stop) && i < |s.workers| && s.workers[i] == Spreading(item)
    requires s.work.activeWorkers > 0
    ensures WorkMoves(s, SpreadStep(env, s, i, item, sawStop), i)
  {
  }

  /** A step of a worker that goes on holding its item leaves the work queue alone. */
  lemma HoldingMoves(s: State, s': State, i: nat, pc: TraversalPc)
    requires WorkQueue.EndsWhenDone(s.work, s.stop) && i < |s.workers| && s'.workers == s.workers[i := pc]
    requires s'.work == s.work && s'.stop == s.stop
    requires pc != Idle && pc != Done && s.workers[i] != Idle && s.workers[i] != Done
    ensures WorkMoves(s, s', i)
  {
  }

  lemma TraverseCounts(env: Env, s: State, i: nat, sawStop: bool, check: CheckAnswer)
    requires WorkQueue.EndsWhenDone(s.work, s.stop) && CanTraverse(env, s, i, sawStop, check)
    requires HoldsItem(s.workers[i]) <= s.work.activeWorkers
    ensures WorkMoves(s, TraverseStep(env, s, i, sawStop, check), i)
  {
    match s.workers[i] {
      case Idle => hide WorkMoves, PopStep; PopMoves(s, i);
      case Spreading(item) => hide WorkMoves, SpreadStep; SpreadMoves(env, s, i, item, sawStop);
      case Finishing => hide WorkMoves; FinishMoves(s, i);
      case _ => HoldingStep(env, s, i, sawStop, check);
    }
    hide WorkMoves, PopStep, VisitStep, ReadStep, SpreadStep, CheckStep, SubmitStep;
  }

  lemma HoldingStep(env: Env, s: State, i: nat, sawStop: bool, check: CheckAnswer)
    requires WorkQueue.EndsWhenDone(s.work, s.stop) && CanTraverse(env, s, i, sawStop, check)
    requires s.workers[i] != Idle && !s.workers[i].Spreading? && s.workers[i] != Finishing
    ensures WorkMoves(s, TraverseStep(env, s, i, sawStop, check), i)
  {
    var s' := TraverseStep(env, s, i, sawStop, check);
    hide WorkMoves, PopStep, SpreadStep, Decode, FailRead, CountRead, Visit, Abandon, WriteQueue.Enqueue;
    HoldingMoves(s, s', i, s'.workers[i]);
    hide TraverseStep;
  }

  lemma TraverseKeepsWorkCtl(env: Env, s: State, i: nat, sawStop: bool, check: CheckAnswer)
    requires WorkCtl(s.work, s.stop, s.workers) && CanTraverse(env, s, i, sawStop, check)
    ensures var s' := TraverseStep(env, s, i, sawStop, check); WorkCtl(s'.work, s'.stop, s'.workers)
  {
    hide TraverseStep;
    TallyHolds(s.workers, i, HoldsItem);
    TraverseCounts(env, s, i, sawStop, check);
    var s' := TraverseStep(env, s, i, sawStop, check);
    MoveKeepsWorkCtl(s.work, s'.work, s.stop, s.workers, i, s'.workers[i]);
  }

  lemma TraverseKeepsWriteCtl(env: Env, s: State, i: nat, sawStop: bool, check: CheckAnswer)
    requires WriteCtl(env.limits, s.write, s.capability, s.writers) && CanTraverse(env, s, i, sawStop, check)
    ensures var s' := TraverseStep(env, s, i, sawStop, check);
      WriteCtl(env.limits, s'.write, s'.capability, s'.writers) && s'.capability == s.capability &&
        s'.writers == s.writers
  {
    hide WriteQueue.Coherent, WriteQueue.OneBatch;
    if s.workers[i].Submitting? {
      var job := JobFor(env, s.workers[i].block);
      if WriteQueue.Admit(env.limits, s.write, job, s.stop) == WriteQueue.Accepted {
        WriteQueue.EnqueueKeepsCoherent(env.limits, s.write, Loads(s.writers), job);
      }
    }
  }

  lemma TraverseKeepsEndCtl(env: Env, s: State, i: nat, sawStop: bool, check: CheckAnswer)
    requires EndCtl(s) && CanTraverse(env, s, i, sawStop, check)
    ensures EndCtl(TraverseStep(env, s, i, sawStop, check))
  {
    var s' := TraverseStep(env, s, i, sawStop, check);
    assert s.workers[i] != Done;
    assert s.main == JoiningWorkers;
  }

  lemma TraverseKeepsControl(env: Env, s: State, i: nat, sawStop: bool, check: CheckAnswer)
    requires Control(env, s) && CanTraverse(env, s, i, sawStop, check)
    ensures Control(env, TraverseStep(env, s, i, sawStop, check))
  {
    hide WorkCtl, WriteCtl, Shapes, EndCtl;
    TraverseKeepsWorkCtl(env, s, i, sawStop, check);
    TraverseKeepsWriteCtl(env, s, i, sawStop, check);
    TraverseKeepsEndCtl(env, s, i, sawStop, check);
  }

  // ----------------------------------------------------------- write steps keep it

  lemma LoadsUpdate(writers: seq<WriterPc>, w: nat, pc: WriterPc)
    requires w < |writers|
    ensures Loads(writers[w := pc]) == Loads(writers)[w := LoadOf(pc)]
  {
  }

  /** A step that keeps its load and its checkpoint. */
  lemma ShiftKeepsWriteCtl(l: WriteQueue.Limits, q: WriteQueue.State, capability: WriteQueue.Capability,
                           writers: seq<WriterPc>, w: nat, pc: WriterPc)
    requires WriteCtl(l, q, capability, writers) && w < |writers|
    requires LoadOf(pc) == LoadOf(writers[w]) && InCheckpoint(pc) == InCheckpoint(writers[w]) && pc != Returned
    ensures WriteCtl(l, q, capability, writers[w := pc])
  {
    hide WriteQueue.Coherent, WriteQueue.OneBatch;
    LoadsUpdate(writers, w, pc);
    assert Loads(writers)[w := LoadOf(pc)] == Loads(writers);
    TallyUpdate(writers, w, pc, InCheckpoint);
  }

  /** Only the holder of the one outstanding batch can change the capability. */
  lemma PublishKeepsOneBatch(l: WriteQueue.Limits, q: WriteQueue.State, capability: WriteQueue.Capability,
                             after: WriteQueue.Capability, writers: seq<WriterPc>, w: nat)
    requires WriteCtl(l, q, capability, writers) && w < |writers|
    requires capability != WriteQueue.Unsupported || after == WriteQueue.Unsupported
    ensures WriteCtl(l, q, after, writers)
  {
  }

  lemma TakeKeepsWriteCtl(env: Env, s: State, w: nat)
    requires WriteCtl(env.limits, s.write, s.capability, s.writers)
    requires w < |s.writers| && s.writers[w] == Seeking
    requires WriteQueue.NextAction(env.limits, s.write, s.stop, s.capability).Take?
    ensures var s' := SeekStep(env, s, w);
      && s'.writers[w].Publishing? && |s'.writers[w].jobs| >= 1
      && (s'.capability == WriteQueue.Unsupported <==> s.capability == WriteQueue.Unsupported)
      && (s'.capability == WriteQueue.Unsupported ==> |s'.writers[w].jobs| == 1)
      && WriteCtl(env.limits, s'.write, s'.capability, s'.writers)
  {
    var k := WriteQueue.NextAction(env.limits, s.write, s.stop, s.capability).count;
    var loads, batch := Loads(s.writers), s.write.queue[..k];
    WriteQueue.TakeKeepsOneBatch(env.limits, s.write, loads, w, s.stop, s.capability);
    hide WriteQueue.Coherent, WriteQueue.OneBatch;
    WriteQueue.TakeKeepsCoherent(env.limits, s.write, loads, w, k);
    LoadsUpdate(s.writers, w, Publishing(batch));
    TallyUpdate(s.writers, w, Publishing(batch), InCheckpoint);
  }

  lemma RunCheckpointKeepsWriteCtl(env: Env, s: State, w: nat)
    requires WriteCtl(env.limits, s.write, s.capability, s.writers)
    requires w < |s.writers| && s.writers[w] == Seeking
    requires WriteQueue.NextAction(env.limits, s.write, s.stop, s.capability).RunCheckpoint?
    ensures var s' := SeekStep(env, s, w); WriteCtl(env.limits, s'.write, s'.capability, s'.writers)
  {
    hide WriteQueue.Coherent, WriteQueue.OneBatch;
    WriteQueue.CheckpointKeepsCoherent(env.limits, s.write, Loads(s.writers));
    LoadsUpdate(s.writers, w, Checkpointing);
    assert Loads(s.writers)[w := []] == Loads(s.writers);
    TallyUpdate(s.writers, w, Checkpointing, InCheckpoint);
  }

  lemma ExitKeepsWriteCtl(env: Env, s: State, w: nat)
    requires WriteCtl(env.limits, s.write, s.capability, s.writers)
    requires w < |s.writers| && s.writers[w] == Seeking
    requires WriteQueue.NextAction(env.limits, s.write, s.stop, s.capability).Exit?
    ensures var s' := SeekStep(env, s, w); WriteCtl(env.limits, s'.write, s'.capability, s'.writers)
  {
    hide WriteQueue.Coherent, WriteQueue.OneBatch;
    WriteQueue.ClosingKeepsCoherent(env.limits, s.write, Loads(s.writers));
    LoadsUpdate(s.writers, w, Returned);
    assert Loads(s.writers)[w := []] == Loads(s.writers);
    TallyUpdate(s.writers, w, Returned, InCheckpoint);
  }

  lemma ReleaseKeepsWriteCtl(env: Env, s: State, w: nat)
    requires WriteCtl(env.limits, s.write, s.capability, s.writers)
    requires w < |s.writers| && s.writers[w].Releasing?
    ensures WriteCtl(env.limits, WriteQueue.Complete(s.write, s.writers[w].jobs), s.capability, s.writers[w := Seeking])
  {
    var loads := Loads(s.writers);
    hide WriteQueue.Coherent;
    WriteQueue.CompleteKeepsCoherent(env.limits, s.write, loads, w);
    LoadsUpdate(s.writers, w, Seeking);
    TallyUpdate(s.writers, w, Seeking, InCheckpoint);
  }

  /** Ending a checkpoint, well or badly. */
  lemma EndCheckpointKeepsWriteCtl(env: Env, s: State, w: nat)
    requires WriteCtl(env.limits, s.write, s.capability, s.writers)
    requires w < |s.writers| && InCheckpoint(s.writers[w]) == 1
    ensures WriteCtl(env.limits, WriteQueue.FinishCheckpoint(s.write), s.capability, s.writers[w := Seeking])
    ensures WriteCtl(env.limits, WriteQueue.FailCheckpoint(s.write), s.capability, s.writers[w := Seeking])
  {
    hide WriteQueue.Coherent, WriteQueue.OneBatch;
    WriteQueue.ClosingKeepsCoherent(env.limits, s.write, Loads(s.writers));
    LoadsUpdate(s.writers, w, Seeking);
    assert Loads(s.writers)[w := []] == Loads(s.writers);
    TallyUpdate(s.writers, w, Seeking, InCheckpoint);
    TallyHolds(s.writers, w, InCheckpoint);
  }

  lemma WriteKeepsWriteCtl(env: Env, s: State, w: nat, answer: WriteAnswer)
    requires WriteCtl(env.limits, s.write, s.capability, s.writers) && Shapes(s.writers, s.capability)
    requires CanWrite(env, s, w, answer)
    ensures var s' := WriteStep(env, s, w, answer); WriteCtl(env.limits, s'.write, s'.capability, s'.writers)
  {
    hide WriteCtl;
    var s' := WriteStep(env, s, w, answer);
    match s.writers[w] {
      case Seeking =>
        match WriteQueue.NextAction(env.limits, s.write, s.stop, s.capability) {
          case Take(_) => TakeKeepsWriteCtl(env, s, w);
          case RunCheckpoint => RunCheckpointKeepsWriteCtl(env, s, w);
          case Exit => ExitKeepsWriteCtl(env, s, w);
          case Wait =>
        }
      case Releasing(_) => ReleaseKeepsWriteCtl(env, s, w);
      case FinishingCheckpoint => EndCheckpointKeepsWriteCtl(env, s, w);
      case FailingCheckpoint => EndCheckpointKeepsWriteCtl(env, s, w);
      case Returned =>
      case _ =>
        PublishKeepsOneBatch(env.limits, s.write, s.capability, s'.capability, s.writers, w);
        ShiftKeepsWriteCtl(env.limits, s.write, s'.capability, s.writers, w, s'.writers[w]);
    }
  }

  /** While the capability is open, a worker with a load is the only one with a load. */
  lemma OnlyLoad(capability: WriteQueue.Capability, writers: seq<WriterPc>, w: nat, v: nat)
    requires WriteQueue.OneBatch(capability, Loads(writers)) && capability != WriteQueue.Unsupported
    requires w < |writers| && v < |writers| && w != v && LoadOf(writers[w]) != []
    ensures LoadOf(writers[v]) == []
  {
    assert Loads(writers)[w] == LoadOf(writers[w]) && Loads(writers)[v] == LoadOf(writers[v]);
  }

  lemma PutKeepsShape(env: Env, s: State, w: nat, jobs: seq<Job>, done: seq<Completion>, answer: WriteAnswer)
    requires w < |s.writers| && |done| < |jobs| && Aligned(jobs, done)
    ensures var s' := PutStep(env, s, w, jobs, done, answer);
      w < |s'.writers| && s'.capability == s.capability && ShapeOf(s'.writers[w], s'.capability)
  {
  }

  lemma WriteKeepsShapeHere(env: Env, s: State, w: nat, answer: WriteAnswer)
    requires WriteCtl(env.limits, s.write, s.capability, s.writers) && Shapes(s.writers, s.capability)
    requires CanWrite(env, s, w, answer)
    ensures var s' := WriteStep(env, s, w, answer); w < |s'.writers| && ShapeOf(s'.writers[w], s'.capability)
  {
    hide WriteCtl, Aligned, SeekStep, PutStep;
    assert ShapeOf(s.writers[w], s.capability);
    match s.writers[w] {
      case Seeking => SeekKeepsShape(env, s, w);
      case Publishing(jobs) => PublishKeepsShape(env, s, w, jobs, answer);
      case Putting(jobs, done) => PutKeepsShape(env, s, w, jobs, done, answer);
      case _ =>
    }
  }

  lemma PublishKeepsShape(env: Env, s: State, w: nat, jobs: seq<Job>, answer: WriteAnswer)
    requires w < |s.writers| && |jobs| >= 1 && (OffersBatch(jobs, s.capability) ==> BatchAllowed(env, jobs, answer))
    ensures var s' := PublishStep(env, s, w, jobs, answer); ShapeOf(s'.writers[w], s'.capability)
  {
  }

  lemma SeekKeepsShape(env: Env, s: State, w: nat)
    requires WriteCtl(env.limits, s.write, s.capability, s.writers)
    requires w < |s.writers| && s.writers[w] == Seeking
    ensures var s' := SeekStep(env, s, w); w < |s'.writers| && ShapeOf(s'.writers[w], s'.capability)
  {
    hide WriteCtl;
    if WriteQueue.NextAction(env.limits, s.write, s.stop, s.capability).Take? {
      TakeKeepsWriteCtl(env, s, w);
    }
  }

  lemma WriteKeepsShapes(env: Env, s: State, w: nat, answer: WriteAnswer)
    requires WriteCtl(env.limits, s.write, s.capability, s.writers) && Shapes(s.writers, s.capability)
    requires CanWrite(env, s, w, answer)
    ensures var s' := WriteStep(env, s, w, answer); Shapes(s'.writers, s'.capability)
  {
    var s' := WriteStep(env, s, w, answer);
    WriteKeepsShapeHere(env, s, w, answer);
    WriteTouchesOne(env, s, w, answer);
    hide WriteStep, CanWrite, WriteQueue.Coherent, WriteQueue.OneBatch, Aligned;
    assert ShapeOf(s.writers[w], s.capability);
    forall v | 0 <= v < |s'.writers| ensures ShapeOf(s'.writers[v], s'.capability) {
      if v != w {
        assert s'.writers[v] == s.writers[v] && ShapeOf(s.writers[v], s.capability);
        if s'.capability == WriteQueue.Unsupported && s.capability != WriteQueue.Unsupported {
          OnlyLoad(s.capability, s.writers, w, v);
        }
      }
    }
  }

  /** Only an answered batch call can find batches unsupported. */
  lemma WriteTouchesOne(env: Env, s: State, w: nat, answer: WriteAnswer)
    requires CanWrite(env, s, w, answer)
    ensures var s' := WriteStep(env, s, w, answer);
      && w < |s'.writers| == |s.writers| && s'.writers == s.writers[w := s'.writers[w]]
      && (s'.capability == WriteQueue.Unsupported && s.capability != WriteQueue.Unsupported ==>
            s.writers[w].Publishing?)
  {
    match s.writers[w] {
      case Seeking => SeekTouchesOne(env, s, w);
      case Publishing(jobs) => PublishTouchesOne(env, s, w, jobs, answer);
      case _ =>
    }
    hide SeekStep, PublishStep, LandAll, LandSome, Discard, Settle, Land;
  }

  lemma SeekTouchesOne(env: Env, s: State, w: nat)
    requires w < |s.writers| && s.writers[w] == Seeking
    ensures var s' := SeekStep(env, s, w);
      && w < |s'.writers| == |s.writers| && s'.writers == s.writers[w := s'.writers[w]]
      && (s'.capability == WriteQueue.Unsupported ==> s.capability == WriteQueue.Unsupported)
  {
    hide WriteQueue.NextAction, WriteQueue.AfterTake;
  }

  lemma PublishTouchesOne(env: Env, s: State, w: nat, jobs: seq<Job>, answer: WriteAnswer)
    requires w < |s.writers|
    ensures var s' := PublishStep(env, s, w, jobs, answer);
      w < |s'.writers| == |s.writers| && s'.writers == s.writers[w := s'.writers[w]]
  {
    hide LandAll, LandSome, Completions;
  }

  /** A writer's step that leaves the closing of the queues alone. */
  lemma ShiftKeepsEndCtl(s: State, s': State, w: nat, pc: WriterPc)
    requires EndCtl(s) && w < |s.writers| && s'.writers == s.writers[w := pc] && pc != FailingCheckpoint
    requires s'.write.shutdown == s.write.shutdown && s'.write.producersFinished == s.write.producersFinished
    requires s'.stop == s.stop && s'.main == s.main && s'.workers == s.workers && s'.interrupter == s.interrupter
    ensures EndCtl(s')
  {
  }

  lemma PublishKeepsEndCtl(env: Env, s: State, w: nat, jobs: seq<Job>, answer: WriteAnswer)
    requires EndCtl(s) && w < |s.writers|
    ensures EndCtl(PublishStep(env, s, w, jobs, answer))
  {
    hide EndCtl, LandAll, LandSome, Completions;
    var s' := PublishStep(env, s, w, jobs, answer);
    ShiftKeepsEndCtl(s, s', w, s'.writers[w]);
  }

  lemma PutKeepsEndCtl(env: Env, s: State, w: nat, jobs: seq<Job>, done: seq<Completion>, answer: WriteAnswer)
    requires EndCtl(s) && w < |s.writers| && |done| < |jobs|
    ensures EndCtl(PutStep(env, s, w, jobs, done, answer))
  {
    hide EndCtl, Land;
    var s' := PutStep(env, s, w, jobs, done, answer);
    ShiftKeepsEndCtl(s, s', w, s'.writers[w]);
  }

  lemma RecordKeepsEndCtl(s: State, w: nat, jobs: seq<Job>, done: seq<Completion>, next: nat)
    requires EndCtl(s) && w < |s.writers| && next < |done|
    ensures EndCtl(RecordStep(s, w, jobs, done, next))
  {
    hide EndCtl, Settle;
    var s' := RecordStep(s, w, jobs, done, next);
    ShiftKeepsEndCtl(s, s', w, s'.writers[w]);
  }

  /** The remaining steps of a writer. */
  lemma ServiceKeepsEndCtl(env: Env, s: State, w: nat, answer: WriteAnswer)
    requires EndCtl(s) && CanWrite(env, s, w, answer)
    requires s.writers[w].Releasing? || s.writers[w].Checkpointing? || s.writers[w].FinishingCheckpoint?
          || s.writers[w].ReportingFailure? || s.writers[w].RaisingStop? || s.writers[w].FailingCheckpoint?
    ensures EndCtl(WriteStep(env, s, w, answer))
  {
    hide SeekStep, PublishStep, PutStep, RecordStep, Discard, FailStore, AllDone;
  }

  lemma WriteKeepsEndCtl(env: Env, s: State, w: nat, answer: WriteAnswer)
    requires EndCtl(s) && CanWrite(env, s, w, answer)
    ensures EndCtl(WriteStep(env, s, w, answer))
  {
    hide EndCtl, SeekStep, PublishStep, PutStep, RecordStep;
    match s.writers[w] {
      case Seeking => SeekKeepsEndCtl(env, s, w);
      case Publishing(jobs) => PublishKeepsEndCtl(env, s, w, jobs, answer);
      case Putting(jobs, done) => PutKeepsEndCtl(env, s, w, jobs, done, answer);
      case Recording(jobs, done, next) => RecordKeepsEndCtl(s, w, jobs, done, next);
      case Returned =>
      case _ => ServiceKeepsEndCtl(env, s, w, answer);
    }
  }

  lemma SeekKeepsEndCtl(env: Env, s: State, w: nat)
    requires EndCtl(s) && w < |s.writers| && s.writers[w].Seeking?
    requires WriteQueue.NextAction(env.limits, s.write, s.stop, s.capability) != WriteQueue.Wait
    ensures EndCtl(SeekStep(env, s, w))
  {
    hide AllDone;
  }

  lemma WriteKeepsWorkCtl(env: Env, s: State, w: nat, answer: WriteAnswer)
    requires WorkCtl(s.work, s.stop, s.workers) && CanWrite(env, s, w, answer)
    ensures var s' := WriteStep(env, s, w, answer); WorkCtl(s'.work, s'.stop, s'.workers)
  {
  }

  lemma WriteKeepsControl(env: Env, s: State, w: nat, answer: WriteAnswer)
    requires Control(env, s) && CanWrite(env, s, w, answer)
    ensures Control(env, WriteStep(env, s, w, answer))
  {
    hide WorkCtl, WriteCtl, Shapes, EndCtl;
    WriteKeepsWorkCtl(env, s, w, answer);
    WriteKeepsWriteCtl(env, s, w, answer);
    WriteKeepsShapes(env, s, w, answer);
    WriteKeepsEndCtl(env, s, w, answer);
  }

  // ------------------------------------------- the caller and the interrupt watcher

  lemma CloseKeepsWriteCtl(l: WriteQueue.Limits, q: WriteQueue.State, capability: WriteQueue.Capability,
                           writers: seq<WriterPc>)
    requires WriteCtl(l, q, capability, writers)
    ensures WriteCtl(l, WriteQueue.Cleared(q), capability, writers)
    ensures WriteCtl(l, WriteQueue.FinishProducing(q, false), capability, writers)
  {
    hide WriteQueue.Coherent, WriteQueue.OneBatch;
    WriteQueue.ClosingKeepsCoherent(l, q, Loads(writers));
  }

  lemma FinishProducingKeepsControl(env: Env, s: State, sawStop: bool)
    requires Control(env, s) && CanFinishProducing(s, sawStop)
    ensures Control(env, FinishProducingStep(s, sawStop))
  {
    hide WriteCtl, Shapes;
    CloseKeepsWriteCtl(env.limits, s.write, s.capability, s.writers);
  }

  lemma InterruptKeepsControl(env: Env, s: State, sawStop: bool)
    requires Control(env, s) && CanInterrupt(s, sawStop)
    ensures Control(env, InterruptStep(s, sawStop))
  {
    hide WriteCtl, Shapes;
    CloseKeepsWriteCtl(env.limits, s.write, s.capability, s.writers);
  }

  /** Control is an invariant of every step of every thread. */
  lemma StepKeepsControl(env: Env, s: State, e: Event)
    requires Control(env, s) && Enabled(env, s, e)
    ensures Control(env, Apply(env, s, e))
  {
    hide Control;
    match e
    case Traverse(i, sawStop, check) => TraverseKeepsControl(env, s, i, sawStop, check);
    case Write(w, answer) => WriteKeepsControl(env, s, w, answer);
    case FinishProducing(sawStop) => FinishProducingKeepsControl(env, s, sawStop);
    case Interrupt(sawStop) => InterruptKeepsControl(env, s, sawStop);
  }

  // ------------------------------------------------------------------- consequences

  /** Whenever a checkpoint's action runs, one writer runs it, nothing is queued or being
      written, and every accepted write is complete unless a shutdown dropped some. */
  lemma CheckpointRunsAlone(env: Env, s: State, w: nat)
    requires Control(env, s) && w < |s.writers| && s.writers[w] == Checkpointing
    ensures s.write.queue == [] && forall v :: 0 <= v < |s.writers| ==> LoadOf(s.writers[v]) == []
    ensures forall v :: 0 <= v < |s.writers| && v != w ==> InCheckpoint(s.writers[v]) == 0
    ensures multiset(s.write.accepted) == s.write.released + multiset(s.write.discarded)
    ensures s.write.released == multiset(s.write.accepted) <==> s.write.discarded == []
  {
    hide WorkCtl, EndCtl, Shapes, WriteQueue.Coherent, WriteQueue.OneBatch;
    TallyHolds(s.writers, w, InCheckpoint);
    WriteQueue.CheckpointSeesAllWrites(env.limits, s.write, Loads(s.writers));
    forall v | 0 <= v < |s.writers| ensures LoadOf(s.writers[v]) == [] {
      assert Loads(s.writers)[v] == [];
    }
    forall v | 0 <= v < |s.writers| && v != w ensures InCheckpoint(s.writers[v]) == 0 {
      if v < w { TallyHoldsTwo(s.writers, v, w, InCheckpoint); } else { TallyHoldsTwo(s.writers, w, v, InCheckpoint); }
    }
  }

  /** Once a store has refused batches, no step of any thread ever unlearns it. */
  lemma UnsupportedIsPermanent(env: Env, s: State, e: Event)
    requires Control(env, s) && Enabled(env, s, e) && s.capability == WriteQueue.Unsupported
    ensures Apply(env, s, e).capability == WriteQueue.Unsupported
  {
    hide WorkCtl, EndCtl, WriteCtl;
    if e.Write? { assert ShapeOf(s.writers[e.writer], s.capability); }
  }
}
