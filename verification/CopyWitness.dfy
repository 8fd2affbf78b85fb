/** Runs that show what the multi-worker copy does not promise, and exactly when it does. */
module CopyWitness {
  import opened Options
  import opened BlockGraph
  import opened Ledger
  import opened Destination
  import opened CopyProtocol
  import opened CopyControl
  import opened CopyTheorem
  import WorkQueue
  import WriteQueue

  // ---------------------------------------------------------- what a checkpoint sees

  /** The step clears the write queue: a shutdown drops what has not been taken. */
  predicate Clears(s: State, e: Event) {
    match e
    case Write(w, _) => w < |s.writers| && s.writers[w] == FailingCheckpoint
    case FinishProducing(sawStop) => sawStop
    case Interrupt(_) => s.interrupter == ClosingWrites
    case Traverse(_, _, _) => false
  }

  /** Somewhere in the run the queue was cleared while it held jobs. */
  ghost predicate DropsJobs(env: Env, s: State, events: seq<Event>)
    requires IsRun(env, s, events)
    decreases |events|
  {
    events != [] &&
      ((Clears(s, events[0]) && s.write.queue != []) || DropsJobs(env, Apply(env, s, events[0]), events[1..]))
  }

  lemma StepDiscards(env: Env, s: State, e: Event)
    requires Enabled(env, s, e)
    ensures Apply(env, s, e).write.discarded == s.write.discarded + if Clears(s, e) then s.write.queue else []
  {
    assert s.write.discarded + [] == s.write.discarded;
    match e
    case Traverse(i, sawStop, check) => TraverseDiscards(env, s, i, sawStop, check);
    case Write(w, answer) => WriteDiscards(env, s, w, answer);
    case _ =>
  }

  lemma TraverseDiscards(env: Env, s: State, i: nat, sawStop: bool, check: CheckAnswer)
    requires CanTraverse(env, s, i, sawStop, check)
    ensures TraverseStep(env, s, i, sawStop, check).write.discarded == s.write.discarded
  {
  }

  lemma WriteDiscards(env: Env, s: State, w: nat, answer: WriteAnswer)
    requires CanWrite(env, s, w, answer) && s.write.discarded + [] == s.write.discarded
    ensures WriteStep(env, s, w, answer).write.discarded
      == s.write.discarded + if s.writers[w] == FailingCheckpoint then s.write.queue else []
  {
    match s.writers[w] {
      case Seeking => SeekDiscards(env, s, w);
      case Publishing(jobs) => PublishWritesNothing(env, s, w, jobs, answer);
      case Putting(jobs, done) => assert PutStep(env, s, w, jobs, done, answer).write == s.write by { hide Land; }
      case Recording(jobs, done, next) => assert RecordStep(s, w, jobs, done, next).write == s.write by { hide Settle; }
      case _ =>
    }
    hide SeekStep, PublishStep, PutStep, RecordStep, Discard, FailStore;
  }

  lemma PublishWritesNothing(env: Env, s: State, w: nat, jobs: seq<Job>, answer: WriteAnswer)
    requires w < |s.writers|
    ensures PublishStep(env, s, w, jobs, answer).write == s.write
  {
    hide LandAll, LandSome, Completions;
  }

  lemma SeekDiscards(env: Env, s: State, w: nat)
    requires w < |s.writers|
    ensures SeekStep(env, s, w).write.discarded == s.write.discarded
  {
    hide WriteQueue.NextAction, WriteQueue.TotalBytes;
  }

  lemma {:induction false} RunDiscards(env: Env, s: State, events: seq<Event>)
    requires IsRun(env, s, events)
    ensures RunEnd(env, s, events).write.discarded == [] <==> s.write.discarded == [] && !DropsJobs(env, s, events)
    decreases |events|
  {
    hide Enabled, Apply, Clears;
    if events != [] {
      StepDiscards(env, s, events[0]);
      RunDiscards(env, Apply(env, s, events[0]), events[1..]);
    }
  }

  /** In every run a checkpoint's action finds every accepted write completed if and only if
      the write queue was empty whenever it was cleared. */
  lemma CheckpointIsWholeIff(env: Env, workerCount: nat, events: seq<Event>, w: nat)
    requires WellConfigured(env) && workerCount >= 1 && IsRun(env, Initial(env, workerCount), events)
    requires var s := RunEnd(env, Initial(env, workerCount), events); w < |s.writers| && s.writers[w] == Checkpointing
    ensures var q := RunEnd(env, Initial(env, workerCount), events).write;
      q.released == multiset(q.accepted) <==> !DropsJobs(env, Initial(env, workerCount), events)
  {
    hide Control;
    EveryRunIsSound(env, workerCount, events);
    RunDiscards(env, Initial(env, workerCount), events);
    CheckpointRunsAlone(env, RunEnd(env, Initial(env, workerCount), events), w);
  }

  // ------------------------------------------------------------------ building runs

  /** Some run leads from one state to the other. */
  ghost predicate Leads(env: Env, s: State, t: State) {
    exists events :: IsRun(env, s, events) && RunEnd(env, s, events) == t
  }

  lemma LeadsNowhere(env: Env, s: State)
    ensures Leads(env, s, s)
  {
    assert IsRun(env, s, []) && RunEnd(env, s, []) == s;
  }

  lemma {:induction false} RunThenRun(env: Env, s: State, first: seq<Event>, then': seq<Event>)
    requires IsRun(env, s, first) && IsRun(env, RunEnd(env, s, first), then')
    ensures IsRun(env, s, first + then') && RunEnd(env, s, first + then') == RunEnd(env, RunEnd(env, s, first), then')
    decreases |first|
  {
    hide Enabled, Apply;
    if first == [] {
      assert first + then' == then';
    } else {
      assert (first + then')[0] == first[0] && (first + then')[1..] == first[1..] + then';
      RunThenRun(env, Apply(env, s, first[0]), first[1..], then');
    }
  }

  lemma LeadsOn(env: Env, s: State, t: State, u: State)
    requires Leads(env, s, t) && Leads(env, t, u)
    ensures Leads(env, s, u)
  {
    var first :| IsRun(env, s, first) && RunEnd(env, s, first) == t;
    var second :| IsRun(env, t, second) && RunEnd(env, t, second) == u;
    RunThenRun(env, s, first, second);
  }

  lemma LeadsByStep(env: Env, s: State, t: State, e: Event)
    requires Leads(env, s, t) && Enabled(env, t, e)
    ensures Leads(env, s, Apply(env, t, e))
  {
    hide Enabled, Apply;
    assert [e][0] == e && [e][1..] == [];
    assert IsRun(env, Apply(env, t, e), []);
    assert IsRun(env, t, [e]) && RunEnd(env, t, [e]) == Apply(env, t, e);
    LeadsOn(env, s, t, Apply(env, t, e));
  }

  const PROCEED := Traverse(0, false, Absent)

  /** A single traversal worker has passed on a block without children to the writers. */
  function Passed(env: Env, s: State, item: Item): State
    requires Readable(env.source, item.block) && s.work.queue != [] && |s.workers| >= 1
  {
    var noted := NoteAt(s.ledger, item.root, item.block);
    s.(work := s.work.(queue := s.work.queue[1..], activeWorkers := s.work.activeWorkers + 1),
       ledger := Decode(env.source, CountRead(Visit(noted, item.block)), item.block),
       write := WriteQueue.Enqueue(env.limits, s.write, JobFor(env, item.block)),
       workers := s.workers[0 := CountingAttempt])
  }

  lemma ItemPasses(env: Env, s: State, item: Item)
    requires env.limits.mode == WriteQueue.BlindWrite && Readable(env.source, item.block)
    requires ChildrenOf(env.source, item.block) == [] && item.block !in s.ledger.visited
    requires |s.workers| >= 1 && s.workers[0] == Idle && !s.stop && !s.work.shutdown
    requires s.work.queue != [] && s.work.queue[0] == item
    requires WriteQueue.Admit(env.limits, s.write, JobFor(env, item.block), false) == WriteQueue.Accepted
    ensures Leads(env, s, Passed(env, s, item))
  {
    hide NoteAt, Visit, CountRead, Decode, WriteQueue.Admit, WriteQueue.Enqueue, JobFor, Leads;
    LeadsNowhere(env, s);
    LeadsByStep(env, s, s, PROCEED);
    var popped := s.(work := WorkQueue.AfterPop(s.work, false), workers := s.workers[0 := Noting(item)]);
    assert Apply(env, s, PROCEED) == popped;
    LeadsByStep(env, s, popped, PROCEED);
    var noted := popped.(ledger := NoteAt(s.ledger, item.root, item.block), workers := s.workers[0 := Visiting(item)]);
    assert Apply(env, popped, PROCEED) == noted;
    NotingVisitsNothing(s.ledger, item);
    LeadsByStep(env, s, noted, PROCEED);
    var visited := noted.(ledger := Visit(noted.ledger, item.block), workers := s.workers[0 := Reading(item)]);
    assert Apply(env, noted, PROCEED) == visited;
    LeadsByStep(env, s, visited, PROCEED);
    var read := visited.(ledger := CountRead(visited.ledger), workers := s.workers[0 := Decoding(item)]);
    assert Apply(env, visited, PROCEED) == read;
    LeadsByStep(env, s, read, PROCEED);
    var decoded := read.(ledger := Decode(env.source, read.ledger, item.block),
        workers := s.workers[0 := Spreading(item)]);
    assert Apply(env, read, PROCEED) == decoded;
    LeadsByStep(env, s, decoded, PROCEED);
    var spread := decoded.(workers := s.workers[0 := Submitting(item.block)]);
    assert Apply(env, decoded, PROCEED) == spread;
    LeadsByStep(env, s, spread, PROCEED);
    assert Apply(env, spread, PROCEED) == Passed(env, s, item);
  }

  lemma NotingVisitsNothing(l: Ledger, item: Item)
    ensures NoteAt(l, item.root, item.block).visited == l.visited
  {
  }

  // ----------------------------------------------- a checkpoint that misses a write

  const A := BlockId(0)
  const B := BlockId(1)
  const LEAF := Present([], Children([]))

  /** One block to copy blindly, with a checkpoint after every write. */
  const CHECKED := Env(map[A := LEAF], [A], map[], map[], Predictable(map[], true), true,
                       WriteQueue.Limits(1, 0, Some(1), WriteQueue.BlindWrite))

  /** The write is accepted and makes a checkpoint due; the interrupt clears the queue; and
      the checkpoint's action still runs, although the write was never made. */
  lemma CheckpointCanMissWrites()
    ensures exists events ::
      IsRun(CHECKED, Initial(CHECKED, 1), events) && MissedWrite(RunEnd(CHECKED, Initial(CHECKED, 1), events))
  {
    hide Leads;
    var s := Initial(CHECKED, 1);
    var item := WorkQueue.Item(A, A);
    ItemPasses(CHECKED, s, item);
    var t := Passed(CHECKED, s, item);
    var stopped := t.(stop := true, interrupter := ClosingWork);
    LeadsByStep(CHECKED, s, t, Interrupt(false));
    var closing := stopped.(work := WorkQueue.RequestShutdown(t.work), interrupter := ClosingWrites);
    LeadsByStep(CHECKED, s, stopped, Interrupt(false));
    var cleared := Clear(closing).(interrupter := Quiet);
    LeadsByStep(CHECKED, s, closing, Interrupt(false));
    LeadsByStep(CHECKED, s, cleared, Write(0, Silent));
    LeadsToMissedWrite(CHECKED, s, Apply(CHECKED, cleared, Write(0, Silent)));
  }

  predicate MissedWrite(s: State) {
    |s.writers| >= 1 && s.writers[0] == Checkpointing && s.write.released == multiset{} && s.write.accepted != []
  }

  lemma LeadsToMissedWrite(env: Env, s: State, t: State)
    requires Leads(env, s, t) && MissedWrite(t)
    ensures exists events :: IsRun(env, s, events) && MissedWrite(RunEnd(env, s, events))
  {
    var events :| IsRun(env, s, events) && RunEnd(env, s, events) == t;
  }

  // ---------------------------------------------------- a store that is not orderly

  /** Two blocks to copy blindly into a store that takes batches but not block `B`. */
  const FICKLE := Env(map[A := LEAF, B := LEAF], [A, B], map[], map[], Predictable(map[B := "refused"], true), true,
                      WriteQueue.Limits(2, 0, None, WriteQueue.BlindWrite))

  const ITEM_A := WorkQueue.Item(A, A)
  const ITEM_B := WorkQueue.Item(B, B)

  lemma FickleIsNotOrderly()
    ensures FICKLE.store.Predictable? && !Orderly(FICKLE)
  {
    ReachSelf(SourceGraph(FICKLE.source), B);
    assert B in FICKLE.roots by { assert FICKLE.roots[1] == B; }
    assert ReachFromAny(SourceGraph(FICKLE.source), FICKLE.roots, B);
    assert WantsWrite(FICKLE, B) && B in FICKLE.store.writeErrors;
  }

  /** The block has been handed to the writers and its guard dropped. */
  function Handed(env: Env, s: State, item: Item): State
    requires Readable(env.source, item.block) && s.work.queue != [] && |s.workers| >= 1
  {
    var passed := Passed(env, s, item);
    passed.(ledger := CountAttempt(passed.ledger), work := WorkQueue.FinishItem(passed.work, false),
            workers := s.workers[0 := Idle])
  }

  lemma ItemIsHanded(env: Env, s: State, item: Item)
    requires env.limits.mode == WriteQueue.BlindWrite && Readable(env.source, item.block)
    requires ChildrenOf(env.source, item.block) == [] && item.block !in s.ledger.visited
    requires |s.workers| >= 1 && s.workers[0] == Idle && !s.stop && !s.work.shutdown
    requires s.work.queue != [] && s.work.queue[0] == item
    requires WriteQueue.Admit(env.limits, s.write, JobFor(env, item.block), false) == WriteQueue.Accepted
    ensures Leads(env, s, Handed(env, s, item))
  {
    hide WriteQueue.Admit, WriteQueue.Enqueue, JobFor, Leads, Decode, Visit, CountRead, NoteAt, CountAttempt;
    ItemPasses(env, s, item);
    var passed := Passed(env, s, item);
    LeadsByStep(env, s, passed, PROCEED);
    var counted := passed.(ledger := CountAttempt(passed.ledger), workers := s.workers[0 := Finishing]);
    assert Apply(env, passed, PROCEED) == counted;
    LeadsByStep(env, s, counted, PROCEED);
    assert Apply(env, counted, PROCEED) == Handed(env, s, item);
  }

  lemma HandedFacts(env: Env, s: State, item: Item)
    requires Readable(env.source, item.block) && s.work.queue != [] && |s.workers| >= 1
    ensures var l := Handed(env, s, item).ledger;
      l.visited == s.ledger.visited + {item.block} && l.fate == s.ledger.fate
  {
  }

  lemma WholePair(a: Job, b: Job)
    ensures WriteQueue.BatchLength([a, b], 2, 0, 1, |a.bytes|) == 2 && [a, b][..2] == [a, b]
  {
    assert WriteQueue.BatchLength([a, b], 2, 0, 2, |a.bytes| + |b.bytes|) == 2;
  }

  /** A single traversal worker has handed everything over and the writers are idle. */
  predicate AllWritten(s: State) {
    && s.workers == [Idle] && s.work.shutdown && !s.stop && s.main == JoiningWorkers
    && s.writers == [Seeking, Seeking] && s.write.queue == [] && s.write.activeWrites == 0
    && !s.write.checkpointPending && !s.write.checkpointRunning
  }

  lemma AllWrittenEnds(env: Env, s: State, t: State) returns (end: State)
    requires Leads(env, s, t) && AllWritten(t)
    ensures Leads(env, s, end) && Final(end) && !end.stop && end.ledger == t.ledger
  {
    hide Leads;
    LeadsByStep(env, s, t, PROCEED);
    var done := t.(work := t.work.(shutdown := true), workers := [Done]);
    assert Apply(env, t, PROCEED) == done;
    LeadsByStep(env, s, done, FinishProducing(false));
    var joined := done.(write := WriteQueue.FinishProducing(t.write, false), main := JoiningWriters);
    LeadsByStep(env, s, joined, Write(0, Silent));
    var one := joined.(write := WriteQueue.AfterExit(joined.write), writers := [Returned, Seeking]);
    assert Apply(env, joined, Write(0, Silent)) == one;
    LeadsByStep(env, s, one, Write(1, Silent));
    end := one.(write := WriteQueue.AfterExit(one.write), writers := [Returned, Returned]);
    assert Apply(env, one, Write(1, Silent)) == end;
  }

  /** Some uninterrupted run ends with this fate for block `A`. */
  ghost predicate CanEndWith(env: Env, fate: Fate) {
    exists events :: IsRun(env, Initial(env, 1), events) && EndedWith(RunEnd(env, Initial(env, 1), events), fate)
  }

  predicate EndedWith(s: State, fate: Fate) {
    Final(s) && !s.stop && A in s.ledger.fate && s.ledger.fate[A] == fate
  }

  lemma LeadsToFate(env: Env, t: State, fate: Fate)
    requires Leads(env, Initial(env, 1), t) && AllWritten(t) && A in t.ledger.fate && t.ledger.fate[A] == fate
    ensures CanEndWith(env, fate)
  {
    var end := AllWrittenEnds(env, Initial(env, 1), t);
    var events :| IsRun(env, Initial(env, 1), events) && RunEnd(env, Initial(env, 1), events) == end;
    assert EndedWith(RunEnd(env, Initial(env, 1), events), fate);
  }

  const JOB_A := WriteQueue.Job(A, [], false)
  const JOB_B := WriteQueue.Job(B, [], false)

  /** Both blocks are in the queue and nothing has been asked of the store. */
  predicate BothQueued(s: State) {
    && s.workers == [Idle] && s.work.shutdown && !s.stop && s.main == JoiningWorkers
    && s.writers == [Seeking, Seeking] && s.write.queue == [JOB_A, JOB_B] && s.write.activeWrites == 0
    && !s.write.checkpointPending && !s.write.checkpointRunning && s.capability == WriteQueue.Unknown
  }

  lemma LeadsToBothQueued() returns (t: State)
    ensures Leads(FICKLE, Initial(FICKLE, 1), t) && BothQueued(t)
  {
    hide Leads, Decode, CountRead, Visit, NoteAt;
    var s := Initial(FICKLE, 1);
    ItemIsHanded(FICKLE, s, ITEM_A);
    var one := Handed(FICKLE, s, ITEM_A);
    HandedFacts(FICKLE, s, ITEM_A);
    ItemIsHanded(FICKLE, one, ITEM_B);
    t := Handed(FICKLE, one, ITEM_B);
    LeadsOn(FICKLE, s, one, t);
  }

  /** The batch of both blocks is refused, and both are recorded as failed. */
  lemma BothRefused(s: State, t: State) returns (end: State)
    requires Leads(FICKLE, s, t) && BothQueued(t)
    ensures Leads(FICKLE, s, end) && AllWritten(end)
    ensures A in end.ledger.fate && end.ledger.fate[A] == WriteFailed("refused")
  {
    hide Leads, Settle, Completions;
    var jobs := [JOB_A, JOB_B];
    WholePair(JOB_A, JOB_B);
    LeadsByStep(FICKLE, s, t, Write(0, Silent));
    var taken := t.(capability := WriteQueue.Probing, write := WriteQueue.AfterTake(t.write, 2),
        writers := [Publishing(jobs), Seeking]);
    assert Apply(FICKLE, t, Write(0, Silent)) == taken;
    assert jobs[1].block == B;
    var refusal := BatchFailed("refused", {});
    LeadsByStep(FICKLE, s, taken, Write(0, refusal));
    NoneLand(FICKLE, t.ledger, jobs);
    var done := Completions(jobs, Some("refused"));
    var answered := taken.(capability := WriteQueue.Supported, writers := [Recording(jobs, done, 0), Seeking]);
    assert Apply(FICKLE, taken, Write(0, refusal)) == answered;
    PairFailed(t.ledger, jobs);
    end := PairIsRecorded(FICKLE, s, answered, jobs, done);
  }

  lemma NoneLand(env: Env, l: Ledger, jobs: seq<Job>)
    requires |jobs| == 2
    ensures LandSome(env, l, jobs, {}) == l
  {
    assert LandSome(env, l, jobs[1..], {}) == l by { assert jobs[1..][1..] == []; }
  }

  lemma PairFailed(l: Ledger, jobs: seq<Job>)
    requires jobs == [JOB_A, JOB_B]
    ensures var done := Completions(jobs, Some("refused"));
      |done| == 2 &&
        Settle(Settle(l, done[0]), done[1]).fate == l.fate[A := WriteFailed("refused")][B := WriteFailed("refused")]
  {
  }

  lemma PairIsRecorded(env: Env, s: State, t: State, jobs: seq<Job>, done: seq<Completion>) returns (end: State)
    requires Leads(env, s, t) && |done| == 2 && t.writers == [Recording(jobs, done, 0), Seeking]
    ensures end == t.(ledger := Settle(Settle(t.ledger, done[0]), done[1]), write := WriteQueue.Complete(t.write, jobs),
                      writers := [Seeking, Seeking])
    ensures Leads(env, s, end)
  {
    hide Leads, Settle, WriteQueue.Complete;
    LeadsByStep(env, s, t, Write(0, Silent));
    var half := t.(ledger := Settle(t.ledger, done[0]), writers := [Recording(jobs, done, 1), Seeking]);
    assert Apply(env, t, Write(0, Silent)) == half;
    LeadsByStep(env, s, half, Write(0, Silent));
    var whole := half.(ledger := Settle(half.ledger, done[1]), writers := [Releasing(jobs), Seeking]);
    assert Apply(env, half, Write(0, Silent)) == whole;
    LeadsByStep(env, s, whole, Write(0, Silent));
    end := whole.(write := WriteQueue.Complete(whole.write, jobs), writers := [Seeking, Seeking]);
    assert Apply(env, whole, Write(0, Silent)) == end;
  }

  /** Written together the two blocks share one batch, and both fail. */
  lemma TogetherBothFail()
    ensures CanEndWith(FICKLE, WriteFailed("refused"))
  {
    var t := LeadsToBothQueued();
    var end := BothRefused(Initial(FICKLE, 1), t);
    LeadsToFate(FICKLE, end, WriteFailed("refused"));
  }

  lemma OneIsRecorded(env: Env, s: State, t: State, jobs: seq<Job>, c: Completion) returns (end: State)
    requires Leads(env, s, t) && t.writers == [Recording(jobs, [c], 0), Seeking]
    ensures end ==
      t.(ledger := Settle(t.ledger, c), write := WriteQueue.Complete(t.write, jobs), writers := [Seeking, Seeking])
    ensures Leads(env, s, end)
  {
    hide Leads, Settle, WriteQueue.Complete;
    LeadsByStep(env, s, t, Write(0, Silent));
    var whole := t.(ledger := Settle(t.ledger, c), writers := [Releasing(jobs), Seeking]);
    assert Apply(env, t, Write(0, Silent)) == whole;
    LeadsByStep(env, s, whole, Write(0, Silent));
    end := whole.(write := WriteQueue.Complete(whole.write, jobs), writers := [Seeking, Seeking]);
    assert Apply(env, whole, Write(0, Silent)) == end;
  }

  /** The first block has gone to the writers or through them, the second is still to come. */
  predicate SecondToCome(s: State) {
    && s.workers == [Idle] && !s.work.shutdown && !s.stop && s.main == JoiningWorkers && s.work.activeWorkers == 0
    && s.work.queue == [ITEM_B] && s.writers == [Seeking, Seeking] && s.write.activeWrites == 0
    && !s.write.shutdown && !s.write.checkpointPending && !s.write.checkpointRunning && B !in s.ledger.visited
  }

  lemma LeadsToFirstQueued() returns (t: State)
    ensures Leads(FICKLE, Initial(FICKLE, 1), t) && SecondToCome(t)
    ensures t.write.queue == [JOB_A] && t.capability == WriteQueue.Unknown
  {
    hide Leads, Decode, CountRead, Visit, NoteAt;
    var s := Initial(FICKLE, 1);
    ItemIsHanded(FICKLE, s, ITEM_A);
    t := Handed(FICKLE, s, ITEM_A);
    HandedFacts(FICKLE, s, ITEM_A);
  }

  lemma SingleTaken(env: Env, s: State, t: State, job: Job) returns (end: State)
    requires Leads(env, s, t) && t.writers == [Seeking, Seeking] && t.write.queue == [job] && t.write.activeWrites == 0
    ensures end.write.activeWrites == 1 && end.write.queue == []
    ensures end == t.(write := WriteQueue.AfterTake(t.write, 1), writers := [Publishing([job]), Seeking])
    ensures Leads(env, s, end)
  {
    hide Leads;
    assert [job][..1] == [job];
    LeadsByStep(env, s, t, Write(0, Silent));
    end := t.(write := WriteQueue.AfterTake(t.write, 1), writers := [Publishing([job]), Seeking]);
    assert Apply(env, t, Write(0, Silent)) == end;
  }

  /** The first block is written before the second is queued. */
  lemma FirstIsWritten(s: State, t: State) returns (end: State)
    requires Leads(FICKLE, s, t) && SecondToCome(t) && t.write.queue == [JOB_A] && t.capability == WriteQueue.Unknown
    ensures Leads(FICKLE, s, end) && SecondToCome(end) && end.write.queue == []
    ensures end.capability == WriteQueue.Supported
    ensures A in end.ledger.fate && end.ledger.fate[A] == Written
  {
    hide Leads, Put;
    var taken := SingleTaken(FICKLE, s, t, JOB_A);
    LeadsByStep(FICKLE, s, taken, Write(0, BatchOk));
    var jobs, c := [JOB_A], Completion(A, 0, false, None);
    var landed := Land(FICKLE, t.ledger, JOB_A);
    assert jobs[1..] == [] && LandAll(FICKLE, landed, []) == landed;
    assert Completions(jobs, None) == [c];
    var answered := taken.(capability := WriteQueue.Supported, ledger := landed,
        writers := [Recording(jobs, [c], 0), Seeking]);
    assert Apply(FICKLE, taken, Write(0, BatchOk)) == answered;
    end := OneIsRecorded(FICKLE, s, answered, jobs, c);
  }

  lemma SecondIsQueued(s: State, t: State) returns (end: State)
    requires Leads(FICKLE, s, t) && SecondToCome(t) && t.write.queue == [] && t.capability == WriteQueue.Supported
    ensures Leads(FICKLE, s, end) && end.workers == [Idle] && end.work.shutdown && !end.stop
    ensures end.main == JoiningWorkers
    ensures end.writers == [Seeking, Seeking] && end.write.queue == [JOB_B] && end.write.activeWrites == 0
    ensures !end.write.checkpointPending && !end.write.checkpointRunning && end.capability == WriteQueue.Supported
    ensures end.ledger.fate == t.ledger.fate
  {
    hide Leads, Decode, CountRead, Visit, NoteAt;
    ItemIsHanded(FICKLE, t, ITEM_B);
    end := Handed(FICKLE, t, ITEM_B);
    HandedFacts(FICKLE, t, ITEM_B);
    LeadsOn(FICKLE, s, t, end);
  }

  /** The second block goes alone, and only it fails. */
  lemma SecondRefused(s: State, t: State) returns (end: State)
    requires Leads(FICKLE, s, t) && t.workers == [Idle] && t.work.shutdown && !t.stop && t.main == JoiningWorkers
    requires t.writers == [Seeking, Seeking] && t.write.queue == [JOB_B] && t.write.activeWrites == 0
    requires !t.write.checkpointPending && !t.write.checkpointRunning && t.capability == WriteQueue.Supported
    ensures Leads(FICKLE, s, end) && AllWritten(end)
    ensures A in t.ledger.fate ==> A in end.ledger.fate && end.ledger.fate[A] == t.ledger.fate[A]
  {
    hide Leads;
    var taken := SingleTaken(FICKLE, s, t, JOB_B);
    LeadsByStep(FICKLE, s, taken, Write(0, Silent));
    var putting := taken.(writers := [Putting([JOB_B], []), Seeking]);
    assert Apply(FICKLE, taken, Write(0, Silent)) == putting;
    LeadsByStep(FICKLE, s, putting, Write(0, PutFailed("refused")));
    var c := Completion(B, 0, false, Some("refused"));
    var answered := putting.(writers := [Recording([JOB_B], [c], 0), Seeking]);
    assert [] + [c] == [c];
    assert Apply(FICKLE, putting, Write(0, PutFailed("refused"))) == answered;
    end := OneIsRecorded(FICKLE, s, answered, [JOB_B], c);
  }

  /** Written apart the first block is written well, and only the second fails. */
  lemma ApartOneFails()
    ensures CanEndWith(FICKLE, Written)
  {
    var queued := LeadsToFirstQueued();
    var written := FirstIsWritten(Initial(FICKLE, 1), queued);
    var second := SecondIsQueued(Initial(FICKLE, 1), written);
    var end := SecondRefused(Initial(FICKLE, 1), second);
    LeadsToFate(FICKLE, end, Written);
  }

  /** Confluence needs an orderly store: two uninterrupted schedules of the same copy end
      with different fates of a block that the store never refuses by itself. */
  lemma UnorderlySchedulesDiffer()
    ensures FICKLE.store.Predictable? && !Orderly(FICKLE)
    ensures exists run1, run2 :: Differ(FICKLE, run1, run2)
  {
    FickleIsNotOrderly();
    TogetherBothFail();
    ApartOneFails();
    var run1 :| IsRun(FICKLE, Initial(FICKLE, 1), run1) &&
      EndedWith(RunEnd(FICKLE, Initial(FICKLE, 1), run1), WriteFailed("refused"));
    var run2 :| IsRun(FICKLE, Initial(FICKLE, 1), run2) && EndedWith(RunEnd(FICKLE, Initial(FICKLE, 1), run2), Written);
    assert Differ(FICKLE, run1, run2);
  }

  ghost predicate Differ(env: Env, run1: seq<Event>, run2: seq<Event>) {
    && IsRun(env, Initial(env, 1), run1) && IsRun(env, Initial(env, 1), run2)
    && var s1, s2 := RunEnd(env, Initial(env, 1), run1), RunEnd(env, Initial(env, 1), run2);
      Final(s1) && !s1.stop && Final(s2) && !s2.stop && s1.ledger.fate != s2.ledger.fate
  }
}
