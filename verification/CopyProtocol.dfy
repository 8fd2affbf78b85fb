/** The multi-worker copy as a transition system. Each thread is a program counter; each
    step is one critical section, one store call, or one load of the stop flag together
    with the section it guards. Waiting on a condition variable is not being enabled. */
module CopyProtocol {
  import opened Options
  import opened BlockGraph
  import opened Ledger
  import opened Destination
  import WorkQueue
  import WriteQueue

  type Item = WorkQueue.Item

  datatype TraversalPc =
    | Idle                                           // about to pop
    | Noting(item: Item)                             // popped; about to note the root
    | Visiting(item: Item)                           // about to enter the visited set
    | Reading(item: Item)                            // first to visit; about to read the source
    | Decoding(item: Item)                           // about to decode and remember the children
    | Spreading(item: Item)                          // about to queue the children
    | Checking(block: BlockId)                       // about to look the block up in the destination
    | Skipping(block: BlockId)                       // found it there
    | FailingCheck(block: BlockId, message: string)  // the look-up failed
    | Submitting(block: BlockId)                     // offering the write
    | CountingAttempt                                // blind write accepted
    | Finishing                                      // about to drop the work-item guard
    | Done

  datatype WriterPc =
    | Seeking                                                      // asking for the next action
    | Publishing(jobs: seq<Job>)                                   // took a batch
    | Putting(jobs: seq<Job>, done: seq<Completion>)               // writing the jobs one by one
    | Recording(jobs: seq<Job>, done: seq<Completion>, next: nat)  // recording completions
    | Releasing(jobs: seq<Job>)                                    // about to drop the active-write guard
    | Checkpointing                                                // running the checkpoint action
    | FinishingCheckpoint
    | ReportingFailure(message: string)
    | RaisingStop
    | FailingCheckpoint
    | Returned

  datatype MainPc = JoiningWorkers | JoiningWriters

  datatype InterruptPc = Watching | ClosingWork | ClosingWrites | Quiet

  datatype State = State(
    work: WorkQueue.State,
    write: WriteQueue.State,
    capability: WriteQueue.Capability,
    ledger: Ledger,
    stop: bool,
    workers: seq<TraversalPc>,
    writers: seq<WriterPc>,
    main: MainPc,
    interrupter: InterruptPc)

  datatype CheckAnswer = InPlace | Absent | CheckError(message: string)

  datatype WriteAnswer =
    | Silent
    | BatchOk
    | BatchUnsupported
    | BatchFailed(message: string, landed: set<BlockId>)
    | PutOk
    | PutFailed(message: string)
    | CheckpointOk
    | CheckpointError(message: string)

  /** Whose step it is, with the answers of the stores and the loads of the stop flag that
      are not made under a lock. */
  datatype Event =
    | Traverse(worker: nat, sawStop: bool, check: CheckAnswer)
    | Write(writer: nat, answer: WriteAnswer)
    | FinishProducing(sawStop: bool)
    | Interrupt(sawStop: bool)

  predicate WellConfigured(env: Env) {
    env.limits.count >= 1
  }

  function Initial(env: Env, workerCount: nat): State {
    State(WorkQueue.Initial(env.roots), WriteQueue.Initial, WriteQueue.Unknown, Opened(env), false,
          seq(workerCount, i => Idle), seq(env.limits.count, i => Seeking), JoiningWorkers, Watching)
  }

  /** Every traversal and write worker has returned, and the caller has joined them. */
  predicate Final(s: State) {
    && s.main == JoiningWriters
    && (forall i :: 0 <= i < |s.workers| ==> s.workers[i] == Done)
    && (forall i :: 0 <= i < |s.writers| ==> s.writers[i] == Returned)
  }

  // ---------------------------------------------------------- traversal workers

  predicate CheckAllowed(env: Env, l: Ledger, b: BlockId, check: CheckAnswer) {
    && (LooksUpTruly(env.store) && check.InPlace? ==> b in l.blocks)
    && (LooksUpTruly(env.store) && check.Absent? ==> b !in l.blocks)
    && (env.store.Predictable? ==>
      if b in env.checkErrors then check == CheckError(env.checkErrors[b]) else !check.CheckError?)
  }

  predicate CanTraverse(env: Env, s: State, i: nat, sawStop: bool, check: CheckAnswer) {
    && i < |s.workers|
    && (sawStop ==> s.stop)
    && match s.workers[i] {
      case Idle => WorkQueue.Pop(s.work, s.stop) != WorkQueue.MustWait
      case Checking(b) => sawStop || CheckAllowed(env, s.ledger, b, check)
      case Submitting(b) =>
        Readable(env.source, b) && WriteQueue.Admit(env.limits, s.write, JobFor(env, b), s.stop) != WriteQueue.MustWait
      case Done => false
      case _ => true
    }
  }

  function Move(s: State, i: nat, pc: TraversalPc): State
    requires i < |s.workers|
  {
    s.(workers := s.workers[i := pc])
  }

  function PopStep(s: State, i: nat): State
    requires i < |s.workers|
  {
    var moved := s.(work := WorkQueue.AfterPop(s.work, s.stop));
    match WorkQueue.Pop(s.work, s.stop)
    case Next(item) => Move(moved, i, Noting(item))
    case Finished => Move(moved, i, Done)
    case MustWait => s
  }

  function VisitStep(s: State, i: nat, item: Item): State
    requires i < |s.workers|
  {
    if item.block in s.ledger.visited then Move(s, i, Finishing)
    else Move(s.(ledger := Visit(s.ledger, item.block)), i, Reading(item))
  }

  function ReadStep(env: Env, s: State, i: nat, item: Item): State
    requires i < |s.workers|
  {
    var read := s.(ledger := CountRead(s.ledger));
    if Readable(env.source, item.block) then Move(read, i, Decoding(item))
    else Move(read.(ledger := FailRead(env.source, read.ledger, item.block)), i, Finishing)
  }

  function SpreadStep(env: Env, s: State, i: nat, item: Item, sawStop: bool): State
    requires i < |s.workers|
  {
    var work := WorkQueue.EnqueueChildren(s.work, item.root, ChildrenOf(env.source, item.block), sawStop);
    var next := if env.limits.mode == WriteQueue.ReadBeforeWrite then Checking(item.block) else Submitting(item.block);
    Move(s.(work := work), i, next)
  }

  function CheckStep(s: State, i: nat, b: BlockId, sawStop: bool, check: CheckAnswer): State
    requires i < |s.workers|
  {
    if sawStop then Move(s.(ledger := Abandon(s.ledger, b)), i, Finishing)
    else match check {
      case InPlace => Move(s, i, Skipping(b))
      case Absent => Move(s, i, Submitting(b))
      case CheckError(m) => Move(s, i, FailingCheck(b, m))
    }
  }

  function SubmitStep(env: Env, s: State, i: nat, b: BlockId): State
    requires i < |s.workers| && Readable(env.source, b)
  {
    match WriteQueue.Admit(env.limits, s.write, JobFor(env, b), s.stop)
    case Refused => Move(s.(ledger := Abandon(s.ledger, b)), i, Finishing)
    case Accepted =>
      Move(s.(write := WriteQueue.Enqueue(env.limits, s.write, JobFor(env, b))), i,
           if env.limits.mode == WriteQueue.BlindWrite then CountingAttempt else Finishing)
    case MustWait => s
  }

  function TraverseStep(env: Env, s: State, i: nat, sawStop: bool, check: CheckAnswer): State
    requires CanTraverse(env, s, i, sawStop, check)
  {
    match s.workers[i]
    case Idle => PopStep(s, i)
    case Noting(item) => Move(s.(ledger := NoteAt(s.ledger, item.root, item.block)), i, Visiting(item))
    case Visiting(item) => VisitStep(s, i, item)
    case Reading(item) => ReadStep(env, s, i, item)
    case Decoding(item) => Move(s.(ledger := Decode(env.source, s.ledger, item.block)), i, Spreading(item))
    case Spreading(item) => SpreadStep(env, s, i, item, sawStop)
    case Checking(b) => CheckStep(s, i, b, sawStop, check)
    case Skipping(b) => Move(s.(ledger := SkipPresent(s.ledger, b)), i, Finishing)
    case FailingCheck(b, m) => Move(s.(ledger := FailCheck(s.ledger, b, m)), i, Finishing)
    case Submitting(b) => SubmitStep(env, s, i, b)
    case CountingAttempt => Move(s.(ledger := CountAttempt(s.ledger)), i, Finishing)
    case Finishing => Move(s.(work := WorkQueue.FinishItem(s.work, s.stop)), i, Idle)
    case Done => s
  }

  // -------------------------------------------------------------- write workers

  /** A batch of several jobs is always offered as a batch; a single job only while the
      store's support is not yet known. */
  predicate OffersBatch(jobs: seq<Job>, capability: WriteQueue.Capability) {
    |jobs| > 1 || (|jobs| == 1 && (capability == WriteQueue.Unknown || capability == WriteQueue.Probing))
  }

  predicate BatchAllowed(env: Env, jobs: seq<Job>, answer: WriteAnswer) {
    && (answer.BatchOk? || answer.BatchUnsupported? || answer.BatchFailed?)
    && (FixedSupport(env.store).Some? ==> (answer.BatchUnsupported? <==> !FixedSupport(env.store).value))
    && (env.store.Predictable? ==>
      && (answer.BatchOk? ==> forall j :: 0 <= j < |jobs| ==> jobs[j].block !in env.store.writeErrors)
      && (answer.BatchFailed? ==> exists j :: 0 <= j < |jobs| && jobs[j].block in env.store.writeErrors))
  }

  predicate PutAllowed(env: Env, b: BlockId, answer: WriteAnswer) {
    && (answer.PutOk? || answer.PutFailed?)
    && (env.store.Predictable? ==>
      answer == if b in env.store.writeErrors then PutFailed(env.store.writeErrors[b]) else PutOk)
  }

  predicate CanWrite(env: Env, s: State, w: nat, answer: WriteAnswer) {
    && w < |s.writers|
    && match s.writers[w] {
      case Seeking => WriteQueue.NextAction(env.limits, s.write, s.stop, s.capability) != WriteQueue.Wait
      case Publishing(jobs) => OffersBatch(jobs, s.capability) ==> BatchAllowed(env, jobs, answer)
      case Putting(jobs, done) => |done| < |jobs| && PutAllowed(env, jobs[|done|].block, answer)
      case Recording(jobs, done, next) => next < |done|
      case Checkpointing => answer.CheckpointOk? || answer.CheckpointError?
      case Returned => false
      case _ => true
    }
  }

  function Shift(s: State, w: nat, pc: WriterPc): State
    requires w < |s.writers|
  {
    s.(writers := s.writers[w := pc])
  }

  function SeekStep(env: Env, s: State, w: nat): State
    requires w < |s.writers|
  {
    var stalled := WriteQueue.Stalled(s.write, s.capability);
    var probed := s.(capability := WriteQueue.StartsProbe(s.write, s.capability, stalled));
    match WriteQueue.NextAction(env.limits, s.write, s.stop, s.capability)
    case Take(k) =>
      if k > |s.write.queue| then s
      else Shift(probed.(write := WriteQueue.AfterTake(s.write, k)), w, Publishing(s.write.queue[..k]))
    case RunCheckpoint => Shift(s.(write := WriteQueue.AfterRunCheckpoint(s.write)), w, Checkpointing)
    case Exit => Shift(s.(write := WriteQueue.AfterExit(s.write)), w, Returned)
    case Wait => s
  }

  function Completions(jobs: seq<Job>, error: Option<string>): seq<Completion> {
    seq(|jobs|, j requires 0 <= j < |jobs| => Completion(jobs[j].block, |jobs[j].bytes|, jobs[j].countAsCopied, error))
  }

  function LandAll(env: Env, l: Ledger, jobs: seq<Job>): Ledger
    decreases |jobs|
  {
    if jobs == [] then l else LandAll(env, Land(env, l, jobs[0]), jobs[1..])
  }

  /** A failed batch call may have written some of its jobs. */
  function LandSome(env: Env, l: Ledger, jobs: seq<Job>, some: set<BlockId>): Ledger
    decreases |jobs|
  {
    if jobs == [] then l
    else LandSome(env, if jobs[0].block in some then Land(env, l, jobs[0]) else l, jobs[1..], some)
  }

  lemma {:induction false} LandAllFrame(env: Env, l: Ledger, jobs: seq<Job>)
    ensures LandAll(env, l, jobs) == l.(blocks := LandAll(env, l, jobs).blocks, landed := LandAll(env, l, jobs).landed)
    decreases |jobs|
  {
    if jobs != [] { LandAllFrame(env, Land(env, l, jobs[0]), jobs[1..]); }
  }

  lemma {:induction false} LandSomeFrame(env: Env, l: Ledger, jobs: seq<Job>, some: set<BlockId>)
    ensures LandSome(env, l, jobs, some)
         == l.(blocks := LandSome(env, l, jobs, some).blocks, landed := LandSome(env, l, jobs, some).landed)
    decreases |jobs|
  {
    if jobs != [] { LandSomeFrame(env, if jobs[0].block in some then Land(env, l, jobs[0]) else l, jobs[1..], some); }
  }

  function PublishStep(env: Env, s: State, w: nat, jobs: seq<Job>, answer: WriteAnswer): State
    requires w < |s.writers|
  {
    if !OffersBatch(jobs, s.capability) then Shift(s, w, Putting(jobs, []))
    else match answer {
      case BatchOk =>
        Shift(s.(capability := WriteQueue.Supported, ledger := LandAll(env, s.ledger, jobs)), w,
              Recording(jobs, Completions(jobs, None), 0))
      case BatchFailed(m, landed) =>
        Shift(s.(capability := WriteQueue.Supported, ledger := LandSome(env, s.ledger, jobs, landed)), w,
              Recording(jobs, Completions(jobs, Some(m)), 0))
      case _ => Shift(s.(capability := WriteQueue.Unsupported), w, Putting(jobs, []))
    }
  }

  function PutStep(env: Env, s: State, w: nat, jobs: seq<Job>, done: seq<Completion>, answer: WriteAnswer): State
    requires w < |s.writers| && |done| < |jobs|
  {
    var job := jobs[|done|];
    var error := if answer.PutFailed? then Some(answer.message) else None;
    var more := done + [Completion(job.block, |job.bytes|, job.countAsCopied, error)];
    var put := if answer.PutFailed? then s else s.(ledger := Land(env, s.ledger, job));
    Shift(put, w, if |more| == |jobs| then Recording(jobs, more, 0) else Putting(jobs, more))
  }

  function RecordStep(s: State, w: nat, jobs: seq<Job>, done: seq<Completion>, next: nat): State
    requires w < |s.writers| && next < |done|
  {
    Shift(s.(ledger := Settle(s.ledger, done[next])), w,
          if next + 1 == |done| then Releasing(jobs) else Recording(jobs, done, next + 1))
  }

  function WriteStep(env: Env, s: State, w: nat, answer: WriteAnswer): State
    requires CanWrite(env, s, w, answer)
  {
    match s.writers[w]
    case Seeking => SeekStep(env, s, w)
    case Publishing(jobs) => PublishStep(env, s, w, jobs, answer)
    case Putting(jobs, done) => PutStep(env, s, w, jobs, done, answer)
    case Recording(jobs, done, next) => RecordStep(s, w, jobs, done, next)
    case Releasing(jobs) => Shift(s.(write := WriteQueue.Complete(s.write, jobs)), w, Seeking)
    case Checkpointing =>
      Shift(s, w, if answer.CheckpointError? then ReportingFailure(answer.message) else FinishingCheckpoint)
    case FinishingCheckpoint => Shift(s.(write := WriteQueue.FinishCheckpoint(s.write)), w, Seeking)
    case ReportingFailure(m) => Shift(s.(ledger := FailStore(s.ledger, env.roots, m)), w, RaisingStop)
    case RaisingStop => Shift(s.(stop := true), w, FailingCheckpoint)
    case FailingCheckpoint =>
      Shift(s.(write := WriteQueue.FailCheckpoint(s.write), ledger := Discard(s.ledger, s.write.queue)), w, Seeking)
    case Returned => s
  }

  // ------------------------------------------- the caller and the interrupt watcher

  predicate CanFinishProducing(s: State, sawStop: bool) {
    && s.main == JoiningWorkers && (sawStop ==> s.stop)
    && forall i :: 0 <= i < |s.workers| ==> s.workers[i] == Done
  }

  function Clear(s: State): State {
    s.(write := WriteQueue.Cleared(s.write), ledger := Discard(s.ledger, s.write.queue))
  }

  function FinishProducingStep(s: State, sawStop: bool): State {
    var closed := if sawStop then Clear(s) else s.(write := WriteQueue.FinishProducing(s.write, false));
    closed.(main := JoiningWriters)
  }

  predicate CanInterrupt(s: State, sawStop: bool) {
    s.interrupter != Quiet && (sawStop ==> s.stop)
  }

  function InterruptStep(s: State, sawStop: bool): State {
    match s.interrupter
    case Watching => if sawStop then s.(interrupter := Quiet) else s.(stop := true, interrupter := ClosingWork)
    case ClosingWork => s.(work := WorkQueue.RequestShutdown(s.work), interrupter := ClosingWrites)
    case ClosingWrites => Clear(s).(interrupter := Quiet)
    case Quiet => s
  }

  predicate Enabled(env: Env, s: State, e: Event) {
    match e
    case Traverse(i, sawStop, check) => CanTraverse(env, s, i, sawStop, check)
    case Write(w, answer) => CanWrite(env, s, w, answer)
    case FinishProducing(sawStop) => CanFinishProducing(s, sawStop)
    case Interrupt(sawStop) => CanInterrupt(s, sawStop)
  }

  function Apply(env: Env, s: State, e: Event): State
    requires Enabled(env, s, e)
  {
    match e
    case Traverse(i, sawStop, check) => TraverseStep(env, s, i, sawStop, check)
    case Write(w, answer) => WriteStep(env, s, w, answer)
    case FinishProducing(sawStop) => FinishProducingStep(s, sawStop)
    case Interrupt(sawStop) => InterruptStep(s, sawStop)
  }

  /** A run: each event is enabled where it happens. */
  ghost predicate IsRun(env: Env, s: State, events: seq<Event>)
    decreases |events|
  {
    events != [] ==> Enabled(env, s, events[0]) && IsRun(env, Apply(env, s, events[0]), events[1..])
  }

  ghost function RunEnd(env: Env, s: State, events: seq<Event>): State
    requires IsRun(env, s, events)
    decreases |events|
  {
    if events == [] then s else RunEnd(env, Apply(env, s, events[0]), events[1..])
  }
}
