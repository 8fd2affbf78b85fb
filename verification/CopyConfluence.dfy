/** Exactly when the outcome of the multi-worker copy does not depend on its schedule. */
module CopyConfluence {
  import opened Options
  import opened BlockGraph
  import opened Tallies
  import FailureTracker
  import opened Ledger
  import opened Destination
  import opened Frontier
  import opened Outcome
  import opened CopyProtocol
  import opened CopyControl
  import opened CopyProgress
  import opened CopyAccounts
  import opened CopyFront
  import opened CopyPredicted
  import opened CopyTheorem
  import opened CopyWitness
  import WriteQueue

  /** Nobody who looks at destination, fates and report can tell the two apart. */
  ghost predicate SameOutcome(a: Env, l1: Ledger, b: Env, l2: Ledger) {
    && l1.blocks == l2.blocks && l1.fate == l2.fate
    && forall f1, f2 :: FailureTracker.Explains(l1.log, f1) && FailureTracker.Explains(l2.log, f2) ==>
         ReportOf(a, l1, f1) == ReportOf(b, l2, f2)
  }

  predicate EndsAs(s: State, l: Ledger) { Final(s) && !s.stop && s.ledger == l }

  /** Some uninterrupted run, with some number of traversal workers, ends with this ledger. */
  ghost predicate CanEndAs(env: Env, l: Ledger) {
    exists n: nat, events ::
      n >= 1 && IsRun(env, Initial(env, n), events) && EndsAs(RunEnd(env, Initial(env, n), events), l)
  }

  /** All uninterrupted runs of the copy, whatever the numbers of workers, the limits and the
      checkpoint intervals, have the same outcome. */
  ghost predicate Confluent(env: Env) {
    forall a, b, l1, l2 ::
      (SameTask(env, a) && SameTask(env, b) && WellConfigured(a) && WellConfigured(b)
       && CanEndAs(a, l1) && CanEndAs(b, l2)) ==> SameOutcome(a, l1, b, l2)
  }

  lemma OrderlyIsConfluent(env: Env)
    requires Orderly(env)
    ensures Confluent(env)
  {
    hide Orderly, SameOutcome;
    forall a, b, l1, l2 | SameTask(env, a) && SameTask(env, b) && WellConfigured(a) && WellConfigured(b)
      && CanEndAs(a, l1) && CanEndAs(b, l2)
      ensures SameOutcome(a, l1, b, l2)
    {
      SameTaskSameOrder(env, a);
      SameTaskSameOrder(env, b);
      EndIsReference(a, l1);
      EndIsReference(b, l2);
      OrderlyIsPredictable(a);
      ExactMeansSame(a, l1, b, l2);
    }
  }

  lemma EndIsReference(env: Env, l: Ledger)
    requires Orderly(env) && WellConfigured(env) && CanEndAs(env, l)
    ensures env.store.Predictable? && Exact(env, l)
  {
    hide Orderly, Initial, Exact, Final;
    OrderlyIsPredictable(env);
    var n: nat, events :|
      n >= 1 && IsRun(env, Initial(env, n), events) && EndsAs(RunEnd(env, Initial(env, n), events), l);
    UninterruptedRunIsExact(env, n, events);
  }

  lemma ExactMeansSame(a: Env, l1: Ledger, b: Env, l2: Ledger)
    requires SameTask(a, b) && a.store.Predictable? && Exact(a, l1) && Exact(b, l2)
    ensures SameOutcome(a, l1, b, l2)
  {
    SameTaskSameResult(a, b, l2);
    FatesDetermined(a, l1, l2);
    hide Exact, FailureTracker.Explains;
    assert l1.blocks == l2.blocks by { BlocksAre(a, l1); BlocksAre(a, l2); }
    forall f1, f2 | FailureTracker.Explains(l1.log, f1) && FailureTracker.Explains(l2.log, f2)
      ensures ReportOf(a, l1, f1) == ReportOf(b, l2, f2)
    {
      ExactIsUnique(a, b, l1, l2, f1, f2);
    }
  }

  lemma BlocksAre(env: Env, l: Ledger)
    requires env.store.Predictable? && Exact(env, l)
    ensures l.blocks == ExpectedBlocks(env)
  {
  }

  // ------------------------------------------------------ a copy with room for all

  /** The limits never make a traversal worker wait. */
  predicate Roomy(env: Env) {
    && env.limits.count > |Universe(env.source, env.roots)|
    && env.limits.bytes == 0 && env.limits.interval.None?
  }

  /** The blocks the copy will want to write. */
  ghost function Wanted(env: Env): set<BlockId> {
    set b | b in ReachableSet(env.source, env.roots) && WantsWrite(env, b)
  }

  /** The writers are idle, and what has been written or refused so far is `asked`. */
  ghost predicate Resting(env: Env, s: State, asked: set<BlockId>) {
    && Sound(env, s) && !s.stop && s.main == JoiningWorkers && !s.write.checkpointPending
    && (forall w :: 0 <= w < |s.writers| ==> s.writers[w] == Seeking)
    && Asked(env, s, asked)
  }

  ghost predicate Asked(env: Env, s: State, asked: set<BlockId>) {
    && asked <= s.ledger.fate.Keys
    && (forall b :: b in s.ledger.fate ==> (WantsWrite(env, b) <==> b in asked))
    && (forall j :: 0 <= j < |s.write.queue| ==> WantsWrite(env, s.write.queue[j].block))
  }

  lemma RestingFacts(env: Env, s: State, asked: set<BlockId>)
    requires Resting(env, s, asked)
    ensures Control(env, s) && Within(env, s) && CalmWriters(s.writers) && !s.write.shutdown
    ensures s.write.activeWrites == 0 && !s.write.checkpointRunning && |s.writers| == env.limits.count
  {
    hide Accounts, Frontal, Predicted, Intact, Within;
    CalmIsInactive(env.limits, s.write, s.capability, s.writers);
  }

  lemma {:induction false} BlocksOfSize(jobs: seq<Job>)
    ensures |BlocksOf(jobs)| == |jobs|
  {
    if jobs != [] { BlocksOfSize(jobs[1..]); }
  }

  lemma {:induction false} BlocksOfMembers(jobs: seq<Job>, b: BlockId)
    ensures b in BlocksOf(jobs) <==> exists j :: 0 <= j < |jobs| && jobs[j].block == b
  {
    if jobs != [] {
      BlocksOfMembers(jobs[1..], b);
      if exists j :: 0 <= j < |jobs| && jobs[j].block == b {
        var j :| 0 <= j < |jobs| && jobs[j].block == b;
        if j > 0 { assert jobs[1..][j - 1] == jobs[j]; }
      }
      if j :| 0 <= j < |jobs[1..]| && jobs[1..][j].block == b { assert jobs[j + 1].block == b; }
    }
  }

  lemma SubBagSize(a: multiset<BlockId>, b: multiset<BlockId>)
    requires a <= b
    ensures |a| <= |b|
  {
    assert b == a + (b - a);
  }

  lemma SubSetSize(a: set<BlockId>, b: set<BlockId>)
    requires a <= b
    ensures |a| <= |b|
  {
    assert b == a + (b - a);
  }

  lemma QueueFits(env: Env, s: State)
    requires Sound(env, s)
    ensures |s.write.queue| <= |Universe(env.source, env.roots)|
  {
    hide Control, Within, Frontal, Intact, HandsExpected, Orderly;
    assert BlocksOf(s.write.queue) <= Outstanding(Shares(s)) <= multiset(s.ledger.visited);
    BlocksOfSize(s.write.queue);
    SubBagSize(BlocksOf(s.write.queue), multiset(s.ledger.visited));
    forall b | b in s.ledger.visited ensures b in Universe(env.source, env.roots) {
      ReachInUniverse(env.source, env.roots, b);
    }
    SubSetSize(s.ledger.visited, Universe(env.source, env.roots));
  }

  // ------------------------------------------------------- traversing without writing

  lemma NeverWaits(env: Env, q: WriteQueue.State, job: Job)
    requires Roomy(env) && |q.queue| < env.limits.count && q.activeWrites == 0
    requires !q.checkpointPending && !q.checkpointRunning
    ensures WriteQueue.Admit(env.limits, q, job, false) != WriteQueue.MustWait
  {
  }

  lemma SubmitterIsFree(env: Env, s: State, i: nat)
    requires HandsReadable(env.source, s.workers) && i < |s.workers| && s.workers[i].Submitting? && !s.stop
    requires Roomy(env) && |s.write.queue| < env.limits.count && s.write.activeWrites == 0
    requires !s.write.checkpointPending && !s.write.checkpointRunning
    ensures CanTraverse(env, s, i, false, Absent)
  {
    assert HandReadable(env.source, s.workers[i]);
    NeverWaits(env, s.write, JobFor(env, s.workers[i].block));
    hide WriteQueue.Admit;
  }

  /** Until all traversal workers have returned, one of them has an enabled step. */
  lemma WorkerMoves(env: Env, s: State, asked: set<BlockId>) returns (e: Event)
    requires Resting(env, s, asked) && Roomy(env) && !AllDone(s.workers)
    ensures Enabled(env, s, e) && e.Traverse?
  {
    RestingFacts(env, s, asked);
    QueueFits(env, s);
    hide Sound, Control, Universe, Asked, QueueWithin, HandsWithin, HandsReadable, CanTraverse;
    if i :| 0 <= i < |s.workers| && WorkerBusy(s.workers[i]) {
      e := BusyWorkerMoves(env, s, i);
    } else if i :| 0 <= i < |s.workers| && s.workers[i].Submitting? {
      SubmitterIsFree(env, s, i);
      e := Traverse(i, false, Absent);
    } else {
      var i :| 0 <= i < |s.workers| && s.workers[i] != Done;
      e := AllIdleMoves(env, s, i);
    }
  }

  lemma TraverseLeavesQueue(env: Env, s: State, i: nat, sawStop: bool, check: CheckAnswer)
    requires CanTraverse(env, s, i, sawStop, check) && env.limits.interval.None?
    ensures TraverseStep(env, s, i, sawStop, check).write.checkpointPending == s.write.checkpointPending
    ensures TraverseStep(env, s, i, sawStop, check).capability == s.capability
  {
  }

  /** Without a stop, what a traversal step gives a fate to is not wanted. */
  lemma AddedIsUnwanted(env: Env, s: State, i: nat, sawStop: bool, check: CheckAnswer)
    requires env.store.Predictable? && EndCtl(s) && HandsExpected(env, s) && !s.stop
    requires CanTraverse(env, s, i, sawStop, check)
    ensures AddedBy(env, s, i, sawStop).Gives? ==> !WantsWrite(env, AddedBy(env, s, i, sawStop).block)
  {
    assert HandExpected(env, s.workers[i]);
    if s.workers[i].Submitting? {
      var b := s.workers[i].block;
      if WriteQueue.Admit(env.limits, s.write, JobFor(env, b), s.stop) == WriteQueue.Refused {
        RefusedMeansStop(env, s, i, b);
      }
    }
  }

  /** What the writers see of a traversal step. */
  lemma TraverseSeen(env: Env, s: State, i: nat, sawStop: bool, check: CheckAnswer)
    requires CanTraverse(env, s, i, sawStop, check) && env.limits.interval.None?
    ensures var s' := TraverseStep(env, s, i, sawStop, check);
      && s'.stop == s.stop && s'.main == s.main && s'.writers == s.writers && s'.capability == s.capability
      && s'.write.checkpointPending == s.write.checkpointPending
  {
    TraverseMovesOne(env, s, i, sawStop, check);
    QueueAfterTraverse(env, s, i, sawStop, check);
    TraverseLeavesQueue(env, s, i, sawStop, check);
    hide TraverseStep, CanTraverse;
  }

  lemma TraverseKeepsAsked(env: Env, s: State, asked: set<BlockId>, i: nat, sawStop: bool, check: CheckAnswer)
    requires env.store.Predictable? && EndCtl(s) && HandsExpected(env, s) && !s.stop
    requires Asked(env, s, asked) && CanTraverse(env, s, i, sawStop, check)
    ensures var s' := TraverseStep(env, s, i, sawStop, check);
      && Asked(env, s', asked) && |s'.write.queue| <= |s.write.queue| + 1
      && (forall b :: b in asked ==> s'.ledger.fate[b] == s.ledger.fate[b])
  {
    QueueAfterTraverse(env, s, i, sawStop, check);
    TraverseFrame(env, s, i, sawStop, check);
    AddedIsUnwanted(env, s, i, sawStop, check);
    assert HandExpected(env, s.workers[i]);
    hide TraverseStep, CanTraverse, WantsWrite, AddedBy, EndCtl, ExpectedFate;
  }

  lemma TraverseRests(env: Env, s: State, asked: set<BlockId>, e: Event)
    requires env.store.Predictable? && Resting(env, s, asked) && Roomy(env) && e.Traverse? && Enabled(env, s, e)
    ensures var s' := Apply(env, s, e);
      && Resting(env, s', asked) && s'.capability == s.capability
      && |s'.write.queue| <= |s.write.queue| + 1
      && (forall b :: b in asked ==> b in s.ledger.fate && s'.ledger.fate[b] == s.ledger.fate[b])
  {
    hide Accounts, Frontal, Intact, Within, Faithful, WorkCtl, WriteCtl, Shapes, CanTraverse, TraverseStep;
    hide HandsExpected, EndCtl, Universe;
    StepKeepsSound(env, s, e);
    TraverseSeen(env, s, e.worker, e.sawStop, e.check);
    TraverseKeepsAsked(env, s, asked, e.worker, e.sawStop, e.check);
  }

  /** Traverses until that many jobs are queued, or to the end. */
  lemma {:induction false} TraverseUntil(env: Env, s: State, asked: set<BlockId>, target: nat, d: nat)
    returns (t: State)
    requires env.store.Predictable? && Resting(env, s, asked) && Roomy(env) && |s.write.queue| <= target
    requires forall b :: |ChildrenOf(env.source, b)| <= d
    ensures Leads(env, s, t) && Resting(env, t, asked) && t.capability == s.capability
    ensures |t.write.queue| == target || (AllDone(t.workers) && |t.write.queue| <= target)
    ensures forall b :: b in asked ==> b in s.ledger.fate && t.ledger.fate[b] == s.ledger.fate[b]
    decreases Measure(env, d, s)
  {
    hide Sound, Measure, Apply, Enabled, WantsWrite, Leads;
    assert forall b :: b in asked ==> b in s.ledger.fate;
    if |s.write.queue| == target || AllDone(s.workers) {
      t := s;
      LeadsNowhere(env, s);
    } else {
      var e := WorkerMoves(env, s, asked);
      RestingFacts(env, s, asked);
      TraverseRests(env, s, asked, e);
      StepDecreases(env, d, s, e);
      hide Resting;
      t := TraverseUntil(env, Apply(env, s, e), asked, target, d);
      LeadsNowhere(env, s);
      LeadsByStep(env, s, s, e);
      LeadsOn(env, s, Apply(env, s, e), t);
    }
  }

  /** When the traversal is over, what is queued is what is wanted and has not been asked. */
  lemma QueueIsRest(env: Env, s: State, asked: set<BlockId>)
    requires Resting(env, s, asked) && AllDone(s.workers)
    ensures asked <= Wanted(env) && |s.write.queue| == |Wanted(env) - asked|
    ensures forall b :: b in Wanted(env) - asked ==> b in BlocksOf(s.write.queue)
  {
    hide Sound, Asked, BlocksOf, Wanted;
    VisitedIsReachable(env, s);
    PartsAtRest(env, s);
    hide Resting;
    OpenBlocks(s.ledger.visited, s.ledger.fate.Keys, BlocksOf(s.write.queue));
    BlocksOfSize(s.write.queue);
    OpenIsRest(env, s, asked);
  }

  lemma OpenIsRest(env: Env, s: State, asked: set<BlockId>)
    requires Asked(env, s, asked) && s.ledger.visited == ReachableSet(env.source, env.roots)
    requires s.ledger.fate.Keys <= s.ledger.visited
    requires forall b :: b in BlocksOf(s.write.queue) <==> b in s.ledger.visited - s.ledger.fate.Keys
    ensures asked <= Wanted(env) && s.ledger.visited - s.ledger.fate.Keys == Wanted(env) - asked
  {
    hide WantsWrite, BlocksOf;
    forall b ensures b in s.ledger.visited - s.ledger.fate.Keys <==> b in Wanted(env) - asked {
      BlocksOfMembers(s.write.queue, b);
    }
  }

  lemma OpenBlocks(visited: set<BlockId>, finished: set<BlockId>, open: multiset<BlockId>)
    requires multiset(visited) == multiset(finished) + open
    ensures finished <= visited && open == multiset(visited - finished) && |open| == |visited - finished|
    ensures forall b :: b in open <==> b in visited - finished
  {
    forall b ensures open[b] == multiset(visited - finished)[b] && (b in finished ==> b in visited) {
      assert multiset(visited)[b] == multiset(finished)[b] + open[b];
    }
    assert open == multiset(visited - finished);
  }

  lemma VisitedIsReachable(env: Env, s: State)
    requires Sound(env, s) && AllDone(s.workers) && !s.stop
    ensures s.ledger.visited == ReachableSet(env.source, env.roots)
  {
    FinalFront(env, s);
    hide Control, Within, Accounts, Intact, Predicted, HandsGenuine, OnTrack, Covers, FrontAt;
    NothingPending(env, s.ledger);
  }

  lemma PartsAtRest(env: Env, s: State)
    requires Sound(env, s) && AllDone(s.workers)
    requires forall w :: 0 <= w < |s.writers| ==> s.writers[w] == Seeking
    ensures multiset(s.ledger.visited) == multiset(s.ledger.fate.Keys) + BlocksOf(s.write.queue)
  {
    hide Gather, Tally, Control, Within, Frontal, Intact, Predicted, ReadingOf, HeldOf, UnputOf, PutOkOf, PutErrOf;
    DoneWorkersHoldNothing(s.workers);
    SeekingHoldsNothing(s.writers);
    assert multiset{} + BlocksOf(s.write.queue) == BlocksOf(s.write.queue);
  }

  lemma SeekingHoldsNothing(writers: seq<WriterPc>)
    requires forall w :: 0 <= w < |writers| ==> writers[w] == Seeking
    ensures Gather(writers, UnputOf) == multiset{} && Gather(writers, PutOkOf) == multiset{}
    ensures Gather(writers, PutErrOf) == multiset{}
  {
    hide Gather;
    GatherEmpty(writers, UnputOf);
    GatherEmpty(writers, PutOkOf);
    GatherEmpty(writers, PutErrOf);
  }

  // ------------------------------------------------------- publishing what is queued

  lemma {:induction false} LeadsKeepsSound(env: Env, s: State, t: State)
    requires Sound(env, s) && Leads(env, s, t)
    ensures Sound(env, t)
  {
    hide Sound;
    var events :| IsRun(env, s, events) && RunEnd(env, s, events) == t;
    RunKeepsSound(env, s, events);
  }

  lemma {:induction false} WholeQueue(queue: seq<Job>, target: nat, k: nat, total: nat)
    requires k <= |queue| <= target
    ensures WriteQueue.BatchLength(queue, target, 0, k, total) == |queue|
    decreases |queue| - k
  {
    if k < |queue| { WholeQueue(queue, target, k + 1, total + |queue[k].bytes|); }
  }

  /** The next batch takes the whole queue and is offered as a batch. */
  predicate TakenWhole(q: WriteQueue.State, capability: WriteQueue.Capability) {
    || (capability == WriteQueue.Unknown && 1 <= |q.queue| <= 2)
    || (capability == WriteQueue.Supported && |q.queue| >= 2)
  }

  /** What the store answers to the batch, with a message of our choice if it refuses. */
  ghost function BatchAnswer(env: Env, jobs: seq<Job>, message: string): WriteAnswer
    requires env.store.Predictable?
  {
    if exists j :: 0 <= j < |jobs| && jobs[j].block in env.store.writeErrors then BatchFailed(message, {}) else BatchOk
  }

  ghost function BatchError(env: Env, jobs: seq<Job>, message: string): Option<string>
    requires env.store.Predictable?
  {
    if exists j :: 0 <= j < |jobs| && jobs[j].block in env.store.writeErrors then Some(message) else None
  }

  /** The first writer has taken the whole queue. */
  function Taken(s: State, capability: WriteQueue.Capability): State
    requires |s.writers| >= 1
  {
    s.(capability := capability, write := WriteQueue.AfterTake(s.write, |s.write.queue|),
       writers := s.writers[0 := Publishing(s.write.queue)])
  }

  lemma QueueIsTaken(env: Env, s: State, asked: set<BlockId>) returns (taken: State)
    requires Resting(env, s, asked) && Roomy(env) && TakenWhole(s.write, s.capability)
    ensures |s.writers| >= 1 && CanWrite(env, s, 0, Silent) && taken == WriteStep(env, s, 0, Silent)
    ensures taken == Taken(s, taken.capability) && OffersBatch(s.write.queue, taken.capability)
  {
    hide Sound, Control, Within, Asked, Universe;
    RestingFacts(env, s, asked);
    QueueFits(env, s);
    var queue := s.write.queue;
    var target := WriteQueue.TargetLength(env.limits, s.write, s.capability);
    assert |queue| <= target;
    WholeQueue(queue, target, 1, |queue[0].bytes|);
    assert WriteQueue.NextAction(env.limits, s.write, s.stop, s.capability) == WriteQueue.Take(|queue|);
    assert queue[..|queue|] == queue;
    taken := WriteStep(env, s, 0, Silent);
  }

  lemma {:induction false} LandAllKeepsFates(env: Env, l: Ledger, jobs: seq<Job>)
    ensures LandAll(env, l, jobs).fate == l.fate
    decreases |jobs|
  {
    if jobs != [] { LandAllKeepsFates(env, Land(env, l, jobs[0]), jobs[1..]); }
  }

  lemma {:induction false} LandNone(env: Env, l: Ledger, jobs: seq<Job>)
    ensures LandSome(env, l, jobs, {}) == l
    decreases |jobs|
  {
    if jobs != [] { LandNone(env, l, jobs[1..]); }
  }

  /** The batch call has been answered. */
  lemma QueueIsPublished(env: Env, s: State, message: string) returns (answered: State)
    requires env.store.Predictable? && env.store.batches
    requires |s.writers| >= 1 && s.writers[0].Publishing? && OffersBatch(s.writers[0].jobs, s.capability)
    ensures var jobs, answer := s.writers[0].jobs, BatchAnswer(env, s.writers[0].jobs, message);
      && CanWrite(env, s, 0, answer) && answered == WriteStep(env, s, 0, answer)
      && answered == s.(capability := WriteQueue.Supported, ledger := answered.ledger,
          writers := s.writers[0 := Recording(jobs, Completions(jobs, BatchError(env, jobs, message)), 0)])
      && answered.ledger.fate == s.ledger.fate
  {
    var jobs, answer := s.writers[0].jobs, BatchAnswer(env, s.writers[0].jobs, message);
    LandAllKeepsFates(env, s.ledger, jobs);
    LandNone(env, s.ledger, jobs);
    hide LandAll, LandSome, Completions;
    answered := WriteStep(env, s, 0, answer);
  }

  ghost predicate Among(done: seq<Completion>, next: nat, b: BlockId) {
    exists k :: next <= k < |done| && done[k].block == b
  }

  /** The fates that completions with one and the same error give. */
  ghost predicate FatesGiven(fate: map<BlockId, Fate>, fate': map<BlockId, Fate>, done: seq<Completion>, next: nat,
                             error: Option<string>) {
    && (forall b :: b in fate' <==> b in fate || Among(done, next, b))
    && (forall b :: b in fate' ==>
          if Among(done, next, b) then error.Some? ==> fate'[b] == WriteFailed(error.value)
          else b in fate && fate'[b] == fate[b])
  }

  lemma GivenOneMore(fate: map<BlockId, Fate>, fate': map<BlockId, Fate>, done: seq<Completion>, next: nat,
                     error: Option<string>)
    requires next < |done| && done[next].error == error
    requires FatesGiven(fate[done[next].block := SettledFate(done[next])], fate', done, next + 1, error)
    ensures FatesGiven(fate, fate', done, next, error)
  {
    forall b ensures Among(done, next, b) <==> b == done[next].block || Among(done, next + 1, b) { }
    hide Among;
  }

  lemma {:induction false} AllRecorded(env: Env, s: State, jobs: seq<Job>, done: seq<Completion>, next: nat,
                                       error: Option<string>) returns (t: State)
    requires |s.writers| >= 1 && s.writers[0] == Recording(jobs, done, next) && next < |done|
    requires forall k :: 0 <= k < |done| ==> done[k].error == error
    ensures Leads(env, s, t) && t == s.(ledger := t.ledger, writers := s.writers[0 := Releasing(jobs)])
    ensures FatesGiven(s.ledger.fate, t.ledger.fate, done, next, error)
    decreases |done| - next
  {
    hide Leads, FatesGiven, Settle;
    var s1 := RecordStep(s, 0, jobs, done, next);
    LeadsNowhere(env, s);
    LeadsByStep(env, s, s, Write(0, Silent));
    assert Apply(env, s, Write(0, Silent)) == s1;
    if next + 1 == |done| {
      t := s1;
      NothingGiven(t.ledger.fate, done, error);
    } else {
      t := AllRecorded(env, s1, jobs, done, next + 1, error);
      LeadsOn(env, s, s1, t);
    }
    SettleGives(s.ledger, done[next]);
    GivenOneMore(s.ledger.fate, t.ledger.fate, done, next, error);
  }

  lemma SettleGives(l: Ledger, c: Completion)
    ensures Settle(l, c).fate == l.fate[c.block := SettledFate(c)]
  {
  }

  lemma NothingGiven(fate: map<BlockId, Fate>, done: seq<Completion>, error: Option<string>)
    ensures FatesGiven(fate, fate, done, |done|, error)
  {
  }

  function BlockSet(jobs: seq<Job>): set<BlockId> { set j | 0 <= j < |jobs| :: jobs[j].block }

  lemma PublicationLeads(env: Env, s: State, taken: State, answer: WriteAnswer, answered: State, recorded: State)
    requires CanWrite(env, s, 0, Silent) && taken == WriteStep(env, s, 0, Silent)
    requires CanWrite(env, taken, 0, answer) && answered == WriteStep(env, taken, 0, answer)
    requires Leads(env, answered, recorded) && CanWrite(env, recorded, 0, Silent)
    ensures Leads(env, s, WriteStep(env, recorded, 0, Silent))
  {
    hide Leads, CanWrite, WriteStep;
    LeadsNowhere(env, s);
    LeadsByStep(env, s, s, Write(0, Silent));
    LeadsByStep(env, s, taken, Write(0, answer));
    LeadsOn(env, s, answered, recorded);
    LeadsByStep(env, s, recorded, Write(0, Silent));
  }

  lemma QueuedIsOpen(env: Env, s: State)
    requires Sound(env, s)
    ensures forall j :: 0 <= j < |s.write.queue| ==> s.write.queue[j].block !in s.ledger.fate
  {
    hide Control, Within, Frontal, Intact, Predicted, Books, Gather, Tally;
    forall j | 0 <= j < |s.write.queue| ensures s.write.queue[j].block !in s.ledger.fate {
      var b := s.write.queue[j].block;
      BlocksOfMembers(s.write.queue, b);
      assert b in Shares(s).waiting && b in Outstanding(Shares(s));
      PartIsOpen(env, s.ledger, Shares(s), b);
    }
  }

  /** What the recorded answers add to what has been asked. */
  lemma AskedMore(env: Env, s: State, t: State, asked: set<BlockId>, message: string)
    requires env.store.Predictable? && Asked(env, s, asked) && t.write.queue == []
    requires forall j :: 0 <= j < |s.write.queue| ==> s.write.queue[j].block !in s.ledger.fate
    requires var error := BatchError(env, s.write.queue, message);
      FatesGiven(s.ledger.fate, t.ledger.fate, Completions(s.write.queue, error), 0, error)
    ensures Asked(env, t, asked + BlockSet(s.write.queue))
    ensures forall b :: b in asked ==> t.ledger.fate[b] == s.ledger.fate[b]
    ensures forall b :: b in BlockSet(s.write.queue) && b in env.store.writeErrors ==>
      t.ledger.fate[b] == WriteFailed(message)
  {
    hide WantsWrite;
    var jobs := s.write.queue;
    var done := Completions(jobs, BatchError(env, jobs, message));
    forall b ensures Among(done, 0, b) <==> b in BlockSet(jobs) {
      if b in BlockSet(jobs) {
        var k :| 0 <= k < |jobs| && jobs[k].block == b;
        assert done[k].block == b;
      }
    }
  }

  /** The first writer publishes the whole queue, records the answers and is idle again. */
  lemma QueueIsAsked(env: Env, s: State, asked: set<BlockId>, message: string) returns (t: State)
    requires env.store.Predictable? && env.store.batches && Resting(env, s, asked) && Roomy(env)
    requires TakenWhole(s.write, s.capability)
    ensures Leads(env, s, t) && Resting(env, t, asked + BlockSet(s.write.queue))
    ensures t.workers == s.workers && t.write.queue == [] && t.capability == WriteQueue.Supported
    ensures forall b :: b in asked ==> b in s.ledger.fate && t.ledger.fate[b] == s.ledger.fate[b]
    ensures forall b :: b in BlockSet(s.write.queue) && b in env.store.writeErrors ==>
      b in t.ledger.fate && t.ledger.fate[b] == WriteFailed(message)
  {
    hide Sound, Leads, FatesGiven, Universe, Completions, WriteQueue.TotalBytes;
    var jobs := s.write.queue;
    var error := BatchError(env, jobs, message);
    var taken := QueueIsTaken(env, s, asked);
    var answered := QueueIsPublished(env, taken, message);
    var done := Completions(jobs, error);
    CompletionsAgree(jobs, error);
    var recorded := AllRecorded(env, answered, jobs, done, 0, error);
    t := WriteStep(env, recorded, 0, Silent);
    PublicationLeads(env, s, taken, BatchAnswer(env, jobs, message), answered, recorded);
    LeadsKeepsSound(env, s, t);
    QueuedIsOpen(env, s);
    assert t.ledger == recorded.ledger && t.write.queue == [];
    AskedMore(env, s, t, asked, message);
    hide Asked, BatchError, BatchAnswer, BlockSet;
  }

  lemma CompletionsAgree(jobs: seq<Job>, error: Option<string>)
    ensures |Completions(jobs, error)| == |jobs|
    ensures forall k :: 0 <= k < |jobs| ==> Completions(jobs, error)[k].error == error
  {
  }

  // ----------------------------------------------------------- a run to the very end

  /** The writers below `w` have returned, and nothing is left for the others to do. */
  ghost predicate Leaving(s: State, w: nat) {
    && w <= |s.writers| && !s.stop && s.main == JoiningWriters && AllDone(s.workers)
    && s.write.queue == [] && s.write.activeWrites == 0 && s.write.producersFinished
    && !s.write.checkpointPending && !s.write.checkpointRunning
    && (forall v :: 0 <= v < |s.writers| ==> s.writers[v] == if v < w then Returned else Seeking)
  }

  lemma {:induction false} WritersReturn(env: Env, s: State, w: nat) returns (t: State)
    requires Leaving(s, w)
    ensures Leads(env, s, t) && Final(t) && !t.stop && t.ledger == s.ledger
    decreases |s.writers| - w
  {
    hide Leads;
    LeadsNowhere(env, s);
    if w == |s.writers| {
      t := s;
    } else {
      LeadsByStep(env, s, s, Write(w, Silent));
      var s1 := Apply(env, s, Write(w, Silent));
      assert s1 == Shift(s.(write := WriteQueue.AfterExit(s.write)), w, Returned);
      t := WritersReturn(env, s1, w + 1);
      LeadsOn(env, s, s1, t);
    }
  }

  lemma RestingEnds(env: Env, s: State, asked: set<BlockId>) returns (t: State)
    requires Resting(env, s, asked) && AllDone(s.workers) && s.write.queue == []
    ensures Leads(env, s, t) && Final(t) && !t.stop && t.ledger == s.ledger
  {
    hide Leads, Sound, Asked, Control, Within;
    RestingFacts(env, s, asked);
    LeadsNowhere(env, s);
    LeadsByStep(env, s, s, FinishProducing(false));
    var joined := Apply(env, s, FinishProducing(false));
    t := WritersReturn(env, joined, 0);
    LeadsOn(env, s, joined, t);
  }

  lemma PairDiffers(env: Env, s: State)
    requires Sound(env, s) && |s.write.queue| == 2
    ensures s.write.queue[0].block != s.write.queue[1].block
  {
    hide Control, Within, Frontal, Intact, Predicted, Books, Gather, Tally;
    var queue, b := s.write.queue, s.write.queue[0].block;
    assert BlocksOf(queue) == multiset{b} + (multiset{queue[1].block} + BlocksOf(queue[1..][1..]));
    assert b in Shares(s).waiting && b in Outstanding(Shares(s));
    PartIsOpen(env, s.ledger, Shares(s), b);
    assert BlocksOf(queue)[b] <= Outstanding(Shares(s))[b];
  }

  lemma BlockSetSize(queue: seq<Job>)
    requires |queue| == 1 || (|queue| == 2 && queue[0].block != queue[1].block)
    ensures |BlockSet(queue)| == |queue|
  {
    if |queue| == 1 {
      assert BlockSet(queue) == {queue[0].block};
    } else {
      assert BlockSet(queue) == {queue[0].block, queue[1].block};
    }
  }

  lemma InitialRests(env: Env)
    requires WellConfigured(env)
    ensures Resting(env, Initial(env, 1), {})
  {
    hide Sound;
    InitialSound(env, 1);
  }

  /** Refused: every block of `asked` that the store fails is reported with that message. */
  ghost predicate RefusedAs(env: Env, l: Ledger, asked: set<BlockId>, message: string)
    requires env.store.Predictable?
  {
    forall b :: b in asked && b in env.store.writeErrors ==> b in l.fate && l.fate[b] == WriteFailed(message)
  }

  /** The first batch: of two blocks if the copy wants exactly two, and of one otherwise, so
      that what is left for the second is never a single block. */
  lemma FirstBatch(env: Env, message: string, d: nat) returns (t: State, asked: set<BlockId>)
    requires env.store.Predictable? && env.store.batches && Roomy(env) && Wanted(env) != {}
    requires forall b :: |ChildrenOf(env.source, b)| <= d
    ensures Leads(env, Initial(env, 1), t) && Resting(env, t, asked) && t.capability == WriteQueue.Supported
    ensures t.write.queue == [] && |asked| == (if |Wanted(env)| == 2 then 2 else 1)
    ensures RefusedAs(env, t.ledger, asked, message)
  {
    hide Sound, Leads, Universe, BlockSet, Wanted;
    var s0 := Initial(env, 1);
    InitialRests(env);
    var first := if |Wanted(env)| == 2 then 2 else 1;
    var t1 := TraverseUntil(env, s0, {}, first, d);
    if AllDone(t1.workers) {
      QueueIsRest(env, t1, {});
      assert Wanted(env) - {} == Wanted(env);
    }
    hide Initial;
    if |t1.write.queue| == 2 { PairDiffers(env, t1); }
    BlockSetSize(t1.write.queue);
    t := QueueIsAsked(env, t1, {}, message);
    LeadsOn(env, s0, t1, t);
    asked := BlockSet(t1.write.queue);
    assert {} + asked == asked;
    hide Resting;
  }

  /** A second batch takes all the rest, and the copy ends. */
  lemma SecondBatch(env: Env, s: State, asked: set<BlockId>, message: string, d: nat) returns (t: State)
    requires env.store.Predictable? && env.store.batches && Roomy(env) && Resting(env, s, asked)
    requires s.capability == WriteQueue.Supported && s.write.queue == []
    requires |asked| == (if |Wanted(env)| == 2 then 2 else 1) && RefusedAs(env, s.ledger, asked, message)
    requires forall b :: |ChildrenOf(env.source, b)| <= d
    ensures Leads(env, s, t) && Final(t) && !t.stop && RefusedAs(env, t.ledger, Wanted(env), message)
  {
    hide Sound, Leads, Universe, Wanted, Final;
    var over := TraverseUntil(env, s, asked, env.limits.count, d);
    QueueFits(env, over);
    QueueIsRest(env, over, asked);
    assert Wanted(env) == asked + (Wanted(env) - asked);
    if over.write.queue == [] {
      assert Wanted(env) - asked == {};
      t := RestingEnds(env, over, asked);
    } else {
      var more := QueueIsAsked(env, over, asked, message);
      var all := asked + BlockSet(over.write.queue);
      t := RestingEnds(env, more, all);
      LeadsOn(env, over, more, t);
      forall b | b in Wanted(env) ensures b in all {
        if b !in asked { BlocksOfMembers(over.write.queue, b); }
      }
    }
    LeadsOn(env, s, over, t);
    hide Resting, BlockSet;
  }

  /** With room for everything there is, for every message, an uninterrupted run in which
      all blocks that the store fails are reported with that message. */
  lemma RefusedWith(env: Env, message: string) returns (l: Ledger)
    requires env.store.Predictable? && env.store.batches && Roomy(env) && Wanted(env) != {}
    ensures CanEndAs(env, l) && RefusedAs(env, l, Wanted(env), message)
  {
    hide Initial, Resting, RefusedAs, Wanted, Universe;
    var d := MaxDegree(env.source);
    var s, asked := FirstBatch(env, message, d);
    var t := SecondBatch(env, s, asked, message, d);
    LeadsOn(env, Initial(env, 1), s, t);
    l := t.ledger;
    var events :| IsRun(env, Initial(env, 1), events) && RunEnd(env, Initial(env, 1), events) == t;
    assert EndsAs(RunEnd(env, Initial(env, 1), events), l);
  }

  /** The same copy with room for everything. */
  function WithRoom(env: Env): Env {
    env.(limits := WriteQueue.Limits(|Universe(env.source, env.roots)| + 1, 0, None, env.limits.mode))
  }

  lemma UnorderlyIsNotConfluent(env: Env)
    requires env.store.Predictable? && !Orderly(env)
    ensures !Confluent(env)
  {
    var roomy := WithRoom(env);
    assert SameTask(env, roomy) && Roomy(roomy) && WellConfigured(roomy);
    SameTaskSameOrder(env, roomy);
    var b :| b in ReachableSet(roomy.source, roomy.roots) && WantsWrite(roomy, b) && b in roomy.store.writeErrors;
    assert b in Wanted(roomy);
    var one := RefusedWith(roomy, "one");
    var another := RefusedWith(roomy, "another");
    hide CanEndAs, Wanted, WithRoom, Orderly;
    assert one.fate[b] == WriteFailed("one") && another.fate[b] == WriteFailed("another");
    assert "one" != "another" by { assert |"one"| != |"another"|; }
    assert !SameOutcome(roomy, one, roomy, another);
  }

  /** For a predictable store the outcome is independent of the schedule if and only if the
      store does not take batches, or fails no block that the copy wants to write. */
  lemma ConfluentIffOrderly(env: Env)
    requires env.store.Predictable?
    ensures Confluent(env) <==> Orderly(env)
  {
    hide Confluent, Orderly;
    if Orderly(env) { OrderlyIsConfluent(env); } else { UnorderlyIsNotConfluent(env); }
  }
}
