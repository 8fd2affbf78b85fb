/** What every run of the multi-worker copy achieves. */
module CopyTheorem {
  import opened BlockGraph
  import opened Tallies
  import opened FailureTracker
  import opened Ledger
  import opened Destination
  import opened Frontier
  import opened Outcome
  import opened CopyReport
  import opened CopyProtocol
  import opened CopyControl
  import opened CopyProgress
  import opened CopyAccounts
  import opened CopyFront
  import opened CopyPredicted
  import WriteQueue

  // ------------------------------------------------------------ stops leave traces

  /** Blocks are given up, and the store as a whole is reported, only on account of a stop. */
  ghost predicate Intact(s: State) {
    && (s.stop || NothingLost(s.ledger))
    && (forall f :: f in s.ledger.log.store ==> f.subject == DestinationStore)
    && (s.stop || s.ledger.log.store == multiset{} || exists w :: 0 <= w < |s.writers| && s.writers[w] == RaisingStop)
  }

  lemma InitialIntact(env: Env, workerCount: nat)
    ensures Intact(Initial(env, workerCount))
  {
  }

  /** A submission is refused only after a stop: a shutdown without one comes after the
      traversal workers have returned. */
  lemma RefusedMeansStop(env: Env, s: State, i: nat, b: BlockId)
    requires EndCtl(s) && i < |s.workers| && s.workers[i] == Submitting(b) && Readable(env.source, b)
    requires WriteQueue.Admit(env.limits, s.write, JobFor(env, b), s.stop) == WriteQueue.Refused
    ensures s.stop
  {
    assert s.workers[i] != Done;
  }

  lemma TraverseKeepsIntact(env: Env, s: State, i: nat, sawStop: bool, check: CheckAnswer)
    requires Intact(s) && EndCtl(s) && CanTraverse(env, s, i, sawStop, check)
    ensures Intact(TraverseStep(env, s, i, sawStop, check))
  {
    TraverseTraces(env, s, i, sawStop, check);
    hide EndCtl, TraverseStep, CanTraverse;
  }

  lemma TraverseTraces(env: Env, s: State, i: nat, sawStop: bool, check: CheckAnswer)
    requires EndCtl(s) && CanTraverse(env, s, i, sawStop, check)
    ensures var s' := TraverseStep(env, s, i, sawStop, check);
      && s'.stop == s.stop && s'.writers == s.writers && s'.ledger.log.store == s.ledger.log.store
      && (!s.stop && NothingLost(s.ledger) ==> NothingLost(s'.ledger))
  {
    match s.workers[i] {
      case Reading(_) => FateTraces(env, s, i, sawStop, check);
      case Skipping(_) => FateTraces(env, s, i, sawStop, check);
      case FailingCheck(_, _) => FateTraces(env, s, i, sawStop, check);
      case Submitting(b) => SubmitTraces(env, s, i, b);
      case _ => QuietTraces(env, s, i, sawStop, check);
    }
  }

  lemma FateTraces(env: Env, s: State, i: nat, sawStop: bool, check: CheckAnswer)
    requires CanTraverse(env, s, i, sawStop, check)
    requires s.workers[i].Reading? || s.workers[i].Skipping? || s.workers[i].FailingCheck?
    ensures var s' := TraverseStep(env, s, i, sawStop, check);
      && s'.stop == s.stop && s'.writers == s.writers && s'.ledger.log.store == s.ledger.log.store
      && (NothingLost(s.ledger) ==> NothingLost(s'.ledger))
  {
    hide PopStep, VisitStep, SpreadStep, CheckStep, SubmitStep;
  }

  lemma SubmitTraces(env: Env, s: State, i: nat, b: BlockId)
    requires EndCtl(s) && i < |s.workers| && s.workers[i] == Submitting(b) && Readable(env.source, b)
    ensures var s' := SubmitStep(env, s, i, b);
      && s'.stop == s.stop && s'.writers == s.writers && s'.ledger.log.store == s.ledger.log.store
      && (!s.stop && NothingLost(s.ledger) ==> NothingLost(s'.ledger))
  {
    if WriteQueue.Admit(env.limits, s.write, JobFor(env, b), s.stop) == WriteQueue.Refused {
      RefusedMeansStop(env, s, i, b);
    }
  }

  lemma QuietTraces(env: Env, s: State, i: nat, sawStop: bool, check: CheckAnswer)
    requires CanTraverse(env, s, i, sawStop, check)
    requires !s.workers[i].Reading? && !s.workers[i].Skipping? && !s.workers[i].FailingCheck?
    requires !s.workers[i].Submitting?
    ensures var s' := TraverseStep(env, s, i, sawStop, check);
      && s'.stop == s.stop && s'.writers == s.writers && s'.ledger.log.store == s.ledger.log.store
      && (!s.stop && NothingLost(s.ledger) ==> NothingLost(s'.ledger))
  {
    if s.workers[i].Checking? {
      assert !s.stop ==> CheckStep(s, i, s.workers[i].block, sawStop, check).ledger == s.ledger;
    } else {
      QuietFrame(env, s, i, sawStop, check);
    }
    hide PopStep, VisitStep, ReadStep, SpreadStep, SubmitStep;
  }

  lemma WriteKeepsIntact(env: Env, s: State, w: nat, answer: WriteAnswer)
    requires Intact(s) && EndCtl(s) && CanWrite(env, s, w, answer)
    ensures Intact(WriteStep(env, s, w, answer))
  {
    hide EndCtl, SeekStep;
    var s' := WriteStep(env, s, w, answer);
    if !s.stop && s.ledger.log.store != multiset{} && s.writers[w] != RaisingStop {
      var v :| 0 <= v < |s.writers| && s.writers[v] == RaisingStop;
      WriteShiftsOne(env, s, w, answer);
      assert s'.writers[v] == RaisingStop;
    }
    WriteTraces(env, s, w, answer);
  }

  /** What a writer's step may do to the traces of a stop. */
  ghost predicate Traces(env: Env, s: State, s': State, w: nat)
    requires w < |s.writers|
  {
    && (s.stop ==> s'.stop)
    && (!s.stop ==> KeepsFates(s.ledger, s'.ledger))
    && (if s.writers[w].ReportingFailure?
        then w < |s'.writers| && s'.writers[w] == RaisingStop
          && s'.ledger.log.store == s.ledger.log.store +
               multiset(StoreFailures(env.roots, Template(CompactDestinationStore, s.writers[w].message)))
        else s'.ledger.log.store == s.ledger.log.store)
    && (s.writers[w].RaisingStop? ==> s'.stop)
  }

  ghost predicate KeepsFates(l: Ledger, l': Ledger) {
    forall b :: b in l'.fate ==>
      (b in l.fate && l'.fate[b] == l.fate[b]) || (!l'.fate[b].Abandoned? && !l'.fate[b].Discarded?)
  }

  lemma PublishTraces(env: Env, s: State, w: nat, jobs: seq<Job>, answer: WriteAnswer)
    requires w < |s.writers| && s.writers[w] == Publishing(jobs)
    ensures Traces(env, s, PublishStep(env, s, w, jobs, answer), w)
  {
    LandAllFrame(env, s.ledger, jobs);
    if answer.BatchFailed? { LandSomeFrame(env, s.ledger, jobs, answer.landed); }
    hide LandAll, LandSome, Completions;
  }

  lemma PutTraces(env: Env, s: State, w: nat, jobs: seq<Job>, done: seq<Completion>, answer: WriteAnswer)
    requires w < |s.writers| && s.writers[w] == Putting(jobs, done) && |done| < |jobs|
    ensures Traces(env, s, PutStep(env, s, w, jobs, done, answer), w)
  {
    hide Put;
  }

  lemma RecordTraces(env: Env, s: State, w: nat, jobs: seq<Job>, done: seq<Completion>, next: nat)
    requires w < |s.writers| && s.writers[w] == Recording(jobs, done, next) && next < |done|
    ensures Traces(env, s, RecordStep(s, w, jobs, done, next), w)
  {
  }

  lemma ServiceTraces(env: Env, s: State, w: nat, answer: WriteAnswer)
    requires EndCtl(s) && CanWrite(env, s, w, answer)
    requires s.writers[w].Releasing? || s.writers[w].Checkpointing? || s.writers[w].FinishingCheckpoint?
          || s.writers[w].ReportingFailure? || s.writers[w].RaisingStop? || s.writers[w].FailingCheckpoint?
    ensures Traces(env, s, WriteStep(env, s, w, answer), w)
  {
    hide SeekStep, PublishStep, PutStep, RecordStep;
    DiscardFrame(s.ledger, s.write.queue);
    hide Discard;
  }

  lemma WriteTraces(env: Env, s: State, w: nat, answer: WriteAnswer)
    requires EndCtl(s) && CanWrite(env, s, w, answer)
    ensures Traces(env, s, WriteStep(env, s, w, answer), w)
  {
    match s.writers[w] {
      case Seeking => SeekTraces(env, s, w);
      case Publishing(jobs) => PublishTraces(env, s, w, jobs, answer);
      case Putting(jobs, done) => PutTraces(env, s, w, jobs, done, answer);
      case Recording(jobs, done, next) => RecordTraces(env, s, w, jobs, done, next);
      case Returned =>
      case _ => ServiceTraces(env, s, w, answer);
    }
    hide EndCtl, SeekStep, PublishStep, PutStep, RecordStep, Traces;
  }

  lemma SeekTraces(env: Env, s: State, w: nat)
    requires w < |s.writers| && s.writers[w].Seeking?
    ensures Traces(env, s, SeekStep(env, s, w), w)
  {
  }

  lemma StepKeepsIntact(env: Env, s: State, e: Event)
    requires Intact(s) && Control(env, s) && Enabled(env, s, e)
    ensures Intact(Apply(env, s, e))
  {
    hide WorkCtl, WriteCtl, Shapes, TraverseStep, WriteStep, CanTraverse, CanWrite;
    match e
    case Traverse(i, sawStop, check) =>
      hide Intact, EndCtl;
      TraverseKeepsIntact(env, s, i, sawStop, check);
    case Write(w, answer) =>
      hide Intact, EndCtl;
      WriteKeepsIntact(env, s, w, answer);
    case _ => DiscardFrame(s.ledger, s.write.queue);
  }

  // --------------------------------------------------------------- every reachable state

  /** The invariant of the multi-worker copy, for any stores. */
  ghost predicate Sound(env: Env, s: State) {
    Control(env, s) && Within(env, s) && Accounts(env, s) && Frontal(env, s) && Intact(s) && Predicted(env, s)
  }

  lemma InitialSound(env: Env, workerCount: nat)
    requires WellConfigured(env) && workerCount >= 1
    ensures Sound(env, Initial(env, workerCount))
  {
    hide Control, Within, Accounts, Frontal, Intact, Predicted;
    InitialControl(env, workerCount);
    InitialWithin(env, workerCount);
    InitialAccounts(env, workerCount);
    InitialFrontal(env, workerCount);
    InitialIntact(env, workerCount);
    InitialPredicted(env, workerCount);
  }

  lemma StepKeepsSound(env: Env, s: State, e: Event)
    requires Sound(env, s) && Enabled(env, s, e)
    ensures Sound(env, Apply(env, s, e))
  {
    hide Control, Within, Accounts, Frontal, Intact, Predicted, Enabled, Apply;
    StepKeepsControl(env, s, e);
    StepKeepsWithin(env, s, e);
    StepKeepsAccounts(env, s, e);
    StepKeepsFrontal(env, s, e);
    StepKeepsIntact(env, s, e);
    StepKeepsPredicted(env, s, e);
  }

  lemma {:induction false} RunKeepsSound(env: Env, s: State, events: seq<Event>)
    requires Sound(env, s) && IsRun(env, s, events)
    ensures Sound(env, RunEnd(env, s, events))
    decreases |events|
  {
    hide Sound;
    if events != [] {
      StepKeepsSound(env, s, events[0]);
      RunKeepsSound(env, Apply(env, s, events[0]), events[1..]);
    }
  }

  // -------------------------------------------------------------------- main results

  /** Everything a run from the start can reach, for every schedule and every answer of
      the stores, is sound. */
  lemma EveryRunIsSound(env: Env, workerCount: nat, events: seq<Event>)
    requires WellConfigured(env) && workerCount >= 1 && IsRun(env, Initial(env, workerCount), events)
    ensures Sound(env, RunEnd(env, Initial(env, workerCount), events))
  {
    InitialSound(env, workerCount);
    RunKeepsSound(env, Initial(env, workerCount), events);
  }

  lemma DoneWorkersHoldNothing(workers: seq<TraversalPc>)
    requires forall i :: 0 <= i < |workers| ==> workers[i] == Done
    ensures Gather(workers, ReadingOf) == multiset{} && Gather(workers, HeldOf) == multiset{}
    ensures Tally(workers, UnreadOf) == 0 && Tally(workers, UncountedOf) == 0
  {
    hide Gather, Tally;
    GatherEmpty(workers, ReadingOf);
    GatherEmpty(workers, HeldOf);
    TallyZero(workers, UnreadOf);
    TallyZero(workers, UncountedOf);
  }

  lemma ReturnedWritersHoldNothing(writers: seq<WriterPc>)
    requires forall w :: 0 <= w < |writers| ==> writers[w] == Returned
    ensures Gather(writers, UnputOf) == multiset{} && Gather(writers, PutOkOf) == multiset{}
    ensures Gather(writers, PutErrOf) == multiset{}
  {
    hide Gather;
    GatherEmpty(writers, UnputOf);
    GatherEmpty(writers, PutOkOf);
    GatherEmpty(writers, PutErrOf);
  }

  lemma DoneShares(s: State)
    requires Final(s) && s.write.queue == []
    ensures Shares(s) == NoParts
  {
    hide Gather, Tally, ReadingOf, HeldOf, UnputOf, PutOkOf, PutErrOf, UnreadOf, UncountedOf;
    DoneWorkersHoldNothing(s.workers);
    ReturnedWritersHoldNothing(s.writers);
  }

  lemma ReturnedMeansEmpty(env: Env, s: State)
    requires WriteCtl(env.limits, s.write, s.capability, s.writers) && Final(s)
    ensures s.write.queue == []
  {
    hide WriteQueue.Coherent, WriteQueue.OneBatch;
    WriteQueue.ShutdownMeansEmpty(env.limits, s.write, Loads(s.writers));
    assert s.writers[0] == Returned;
  }

  /** At the end of a run every thread's share is empty. */
  lemma FinalShares(env: Env, s: State)
    requires Sound(env, s) && Final(s)
    ensures Shares(s) == NoParts
  {
    hide Accounts, Within, Frontal, Intact, Predicted, WorkCtl, WriteCtl, Shapes, EndCtl, Shares, Final;
    ReturnedMeansEmpty(env, s);
    DoneShares(s);
  }

  /** An uninterrupted run, with any stores, visits exactly the reachable blocks, reads
      each once, gives each exactly one outcome, and attributes each recorded failure once
      to every requested root that reaches its block. */
  lemma UninterruptedRunIsComplete(env: Env, workerCount: nat, events: seq<Event>)
    requires WellConfigured(env) && workerCount >= 1 && IsRun(env, Initial(env, workerCount), events)
    requires Final(RunEnd(env, Initial(env, workerCount), events))
    requires !RunEnd(env, Initial(env, workerCount), events).stop
    ensures Complete(env, RunEnd(env, Initial(env, workerCount), events).ledger)
  {
    var s := RunEnd(env, Initial(env, workerCount), events);
    EveryRunIsSound(env, workerCount, events);
    FinalShares(env, s);
    UninterruptedEnd(env, s);
    EndIsComplete(env, s.ledger);
  }

  lemma UninterruptedEnd(env: Env, s: State)
    requires Sound(env, s) && Final(s) && !s.stop && Shares(s) == NoParts
    ensures Books(env, s.ledger, NoParts) && OnTrack(env, s.ledger, NoFront) && Covers(env, s.ledger, NoFront)
    ensures NothingLost(s.ledger) && s.ledger.log.store == multiset{} && Faithful(env, s.ledger, NoParts)
  {
    hide Books, Faithful, OnTrack, Covers, WriteCtl, Shapes, EndCtl, Honest, Within, HandsGenuine, HandsExpected;
    FinalFront(env, s);
  }

  /** For a predictable store the result does not depend on the schedule at all: the
      destination, the counters, the fates and the failures are the reference's. */
  lemma UninterruptedRunIsExact(env: Env, workerCount: nat, events: seq<Event>)
    requires WellConfigured(env) && workerCount >= 1 && IsRun(env, Initial(env, workerCount), events) && Orderly(env)
    requires Final(RunEnd(env, Initial(env, workerCount), events))
    requires !RunEnd(env, Initial(env, workerCount), events).stop
    ensures Exact(env, RunEnd(env, Initial(env, workerCount), events).ledger)
  {
    hide Sound, Initial, Final;
    var s := RunEnd(env, Initial(env, workerCount), events);
    EveryRunIsSound(env, workerCount, events);
    FinalShares(env, s);
    UninterruptedEnd(env, s);
    EndIsExact(env, s.ledger);
  }

  /** In every run, stopped or not, and whatever the store answers: only landed blocks can
      differ from before; they were visited and are reachable, and hold the source's bytes,
      or their old ones if the store does not overwrite; and what counts as written landed. */
  lemma EveryRunKeepsDestination(env: Env, workerCount: nat, events: seq<Event>, b: BlockId)
    requires WellConfigured(env) && workerCount >= 1 && IsRun(env, Initial(env, workerCount), events)
    ensures var l := RunEnd(env, Initial(env, workerCount), events).ledger;
      && BlockHolds(env, l, b)
      && (b in l.landed ==> b in l.visited && b in ReachableSet(env.source, env.roots))
      && (b in l.fate && WentWell(l.fate[b]) ==> b in l.landed)
  {
    hide Initial, Books, BlockHolds, OnTrack, Covers, Control, Within, Honest, HandsGenuine, HandsExpected;
    hide Orderly, FatesExpected;
    var s := RunEnd(env, Initial(env, workerCount), events);
    EveryRunIsSound(env, workerCount, events);
    assert BlocksHold(env, s.ledger);
  }

  /** An uninterrupted run that reports no failure has put every reachable block into the
      destination, with the source's bytes wherever it was absent, and has left every other
      id as it was. No look-up may have misled it. */
  lemma FailureFreeRunDelivers(env: Env, workerCount: nat, events: seq<Event>)
    requires WellConfigured(env) && workerCount >= 1 && IsRun(env, Initial(env, workerCount), events)
    requires Final(RunEnd(env, Initial(env, workerCount), events))
    requires !RunEnd(env, Initial(env, workerCount), events).stop
    requires NeverMisled(env) && Explains(RunEnd(env, Initial(env, workerCount), events).ledger.log, multiset{})
    ensures Delivered(env, RunEnd(env, Initial(env, workerCount), events).ledger)
  {
    hide Sound, Initial, Final, Explains, Delivered, Complete, Books, Faithful;
    var s := RunEnd(env, Initial(env, workerCount), events);
    EveryRunIsSound(env, workerCount, events);
    UninterruptedRunIsComplete(env, workerCount, events);
    FinalShares(env, s);
    UninterruptedEnd(env, s);
    FailureFreeIsDelivered(env, s.ledger);
  }

  /** What an uninterrupted run reports: each failure once for each requested root that
      reaches its block, and the figures of what became of the blocks; into an orderly store
      the figures follow from the inputs. */
  lemma UninterruptedRunReports(env: Env, workerCount: nat, events: seq<Event>, failures: multiset<CopyFailure>)
    requires WellConfigured(env) && workerCount >= 1 && IsRun(env, Initial(env, workerCount), events)
    requires Final(RunEnd(env, Initial(env, workerCount), events))
    requires !RunEnd(env, Initial(env, workerCount), events).stop
    requires Explains(RunEnd(env, Initial(env, workerCount), events).ledger.log, failures)
    ensures var l := RunEnd(env, Initial(env, workerCount), events).ledger;
      && Tells(env, l.fate, ReportOf(env, l, failures))
      && (Orderly(env) ==> Foretold(env, ReportOf(env, l, failures)))
  {
    hide Sound, Initial, Final, Explains, Complete, Books, Faithful, Exact, Tells, Foretold, ReportOf, Orderly;
    var s := RunEnd(env, Initial(env, workerCount), events);
    EveryRunIsSound(env, workerCount, events);
    UninterruptedRunIsComplete(env, workerCount, events);
    FinalShares(env, s);
    UninterruptedEnd(env, s);
    ReportTells(env, s.ledger, failures);
    if Orderly(env) {
      OrderlyIsPredictable(env);
      UninterruptedRunIsExact(env, workerCount, events);
      ReportIsForetold(env, s.ledger, failures);
    }
  }

  /** Confluence: any two uninterrupted schedules, even with different numbers of workers,
      limits and checkpoint intervals, leave the same destination and the same report. */
  lemma SchedulesAgree(env1: Env, n1: nat, run1: seq<Event>, f1: multiset<CopyFailure>, env2: Env, n2: nat,
                       run2: seq<Event>, f2: multiset<CopyFailure>)
    requires SameTask(env1, env2) && WellConfigured(env1) && WellConfigured(env2) && Orderly(env1) && n1 >= 1 && n2 >= 1
    requires IsRun(env1, Initial(env1, n1), run1) && IsRun(env2, Initial(env2, n2), run2)
    requires Final(RunEnd(env1, Initial(env1, n1), run1)) && !RunEnd(env1, Initial(env1, n1), run1).stop
    requires Final(RunEnd(env2, Initial(env2, n2), run2)) && !RunEnd(env2, Initial(env2, n2), run2).stop
    requires Explains(RunEnd(env1, Initial(env1, n1), run1).ledger.log, f1)
    requires Explains(RunEnd(env2, Initial(env2, n2), run2).ledger.log, f2)
    ensures var l1, l2 := RunEnd(env1, Initial(env1, n1), run1).ledger, RunEnd(env2, Initial(env2, n2), run2).ledger;
      l1.blocks == l2.blocks && l1.fate == l2.fate && ReportOf(env1, l1, f1) == ReportOf(env2, l2, f2)
  {
    hide Final, Initial, Explains, Exact, Orderly;
    SameTaskSameOrder(env1, env2);
    UninterruptedRunIsExact(env1, n1, run1);
    UninterruptedRunIsExact(env2, n2, run2);
    var l1, l2 := RunEnd(env1, Initial(env1, n1), run1).ledger, RunEnd(env2, Initial(env2, n2), run2).ledger;
    OrderlyIsPredictable(env1);
    ExactIsUnique(env1, env2, l1, l2, f1, f2);
  }

  /** In every run, stopped or not, the report's count of failed blocks equals the number of
      distinct failed ids the progress counter has seen. */
  lemma FailedBlockCountIsProgress(env: Env, workerCount: nat, events: seq<Event>, failures: multiset<CopyFailure>,
                                   counted: set<Subject>)
    requires WellConfigured(env) && workerCount >= 1 && IsRun(env, Initial(env, workerCount), events)
    requires Explains(RunEnd(env, Initial(env, workerCount), events).ledger.log, failures)
    requires forall x :: x in counted <==> FailedSubject(RunEnd(env, Initial(env, workerCount), events).ledger.log, x)
    ensures |SubjectsOf(failures)| == |counted|
  {
    hide Initial, Explains, Books, OnTrack, FailedSubject, Control, Within, Honest, HandsGenuine, Predicted;
    var s := RunEnd(env, Initial(env, workerCount), events);
    EveryRunIsSound(env, workerCount, events);
    FailedCountMatchesProgress(env, s.ledger, Shares(s), FrontAt(s), failures, counted);
  }

  /** Even after a stop, every visited block has exactly one fate when the threads are done. */
  lemma StoppedRunAccountsForAll(env: Env, workerCount: nat, events: seq<Event>)
    requires WellConfigured(env) && workerCount >= 1 && IsRun(env, Initial(env, workerCount), events)
    requires Final(RunEnd(env, Initial(env, workerCount), events))
    ensures var l := RunEnd(env, Initial(env, workerCount), events).ledger;
      l.fate.Keys == l.visited && l.visited <= ReachableSet(env.source, env.roots)
  {
    hide Initial, Control, Within, Honest, Predicted;
    var s := RunEnd(env, Initial(env, workerCount), events);
    EveryRunIsSound(env, workerCount, events);
    FinalShares(env, s);
    FatesCoverVisited(s.ledger);
    forall b | b in s.ledger.visited ensures b in ReachableSet(env.source, env.roots) {
      VisitedIsTracked(env, s.ledger, FrontAt(s), b);
    }
  }

  lemma VisitedIsTracked(env: Env, l: Ledger, f: Front, b: BlockId)
    requires OnTrack(env, l, f) && b in l.visited
    ensures ReachFromAny(SourceGraph(env.source), env.roots, b)
  {
    hide Reach;
    assert IsNoted(l.log, b);
    var root :| (root, b) in l.log.noted;
    assert Genuine(env, (root, b).0, (root, b).1);
  }
}
