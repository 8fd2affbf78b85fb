/** The bounded queue between traversal workers and write workers, with its
    checkpoint barrier and its probe for batch support. */
module WriteQueue {
  import opened Options
  import opened BlockGraph
  import opened Tallies
  import opened Multiples

  datatype Mode = ReadBeforeWrite | BlindWrite

  datatype Capability = Unknown | Probing | Supported | Unsupported

  datatype Job = Job(block: BlockId, bytes: Bytes, countAsCopied: bool)

  /** The queue's fixed configuration. `count` is at least one, a zero `bytes` budget
      means no budget, and a zero interval means no checkpoints. */
  datatype Limits = Limits(count: nat, bytes: nat, interval: Option<nat>, mode: Mode)

  function CheckpointEvery(l: Limits): nat {
    if l.mode == BlindWrite && l.interval.Some? then l.interval.value else 0
  }

  function JobBytes(job: Job): nat { |job.bytes| }

  function TotalBytes(jobs: seq<Job>): nat { Tally(jobs, JobBytes) }

  function Len(jobs: seq<Job>): nat { |jobs| }

  function AsBag(jobs: seq<Job>): multiset<Job> { multiset(jobs) }

  function SaturatingSub(a: nat, b: nat): nat {
    if b <= a then a - b else 0
  }

  /** The state under the queue's lock. The last five fields are history: the jobs
      accepted and taken so far in order, the jobs dropped by a shutdown, the jobs
      released after their batch completed, and the number of checkpoints started. */
  datatype State = State(
    queue: seq<Job>,
    queuedBytes: nat,
    activeWrites: nat,
    activeBytes: nat,
    attempted: nat,
    producersFinished: bool,
    shutdown: bool,
    checkpointPending: bool,
    checkpointRunning: bool,
    accepted: seq<Job>,
    taken: seq<Job>,
    discarded: seq<Job>,
    released: multiset<Job>,
    checkpoints: nat)

  const Initial := State([], 0, 0, 0, 0, false, false, false, false, [], [], [], multiset{}, 0)

  // ---------------------------------------------------------- critical sections

  datatype Admission = Refused | MustWait | Accepted

  function InFlight(q: State): nat { |q.queue| + q.activeWrites }

  function Admit(l: Limits, q: State, job: Job, stop: bool): Admission {
    if q.shutdown || stop then Refused
    else if q.checkpointPending || q.checkpointRunning
      || InFlight(q) >= l.count
      || (InFlight(q) > 0 && l.bytes > 0 && q.queuedBytes + q.activeBytes + |job.bytes| > l.bytes)
    then MustWait
    else Accepted
  }

  function Enqueue(l: Limits, q: State, job: Job): State {
    var every := CheckpointEvery(l);
    var attempted := if every > 0 then q.attempted + 1 else q.attempted;
    q.(queue := q.queue + [job],
       queuedBytes := q.queuedBytes + |job.bytes|,
       attempted := attempted,
       checkpointPending := q.checkpointPending || (every > 0 && attempted % every == 0),
       accepted := q.accepted + [job])
  }

  datatype Action = Wait | Take(count: nat) | RunCheckpoint | Exit

  /** How many jobs of the queue go into one batch, given `k` jobs of `total` bytes so far. */
  function BatchLength(queue: seq<Job>, target: nat, budget: nat, k: nat, total: nat): (n: nat)
    requires k <= |queue|
    ensures k <= n <= |queue|
    decreases |queue| - k
  {
    if k < target && k < |queue| && !(budget > 0 && total + |queue[k].bytes| > budget)
    then BatchLength(queue, target, budget, k + 1, total + |queue[k].bytes|)
    else k
  }

  function TargetLength(l: Limits, q: State, capability: Capability): nat {
    match capability
    case Supported => if l.count > 1 then l.count else 1
    case Unknown => if |q.queue| >= 2 then 2 else 1
    case Probing => 1
    case Unsupported => 1
  }

  function StartsProbe(q: State, capability: Capability, stalled: bool): Capability {
    if !stalled && capability == Unknown && |q.queue| >= 2 then Probing else capability
  }

  predicate Stalled(q: State, capability: Capability) {
    capability != Unsupported && q.activeWrites > 0
  }

  function NextAction(l: Limits, q: State, stop: bool, capability: Capability): Action {
    if Stalled(q, capability) then Wait
    else if q.queue != [] then
      Take(BatchLength(q.queue, TargetLength(l, q, capability), l.bytes, 1, |q.queue[0].bytes|))
    else if q.checkpointPending && !q.checkpointRunning && q.activeWrites == 0 then RunCheckpoint
    else if (q.producersFinished || q.shutdown || stop) && q.activeWrites == 0 && !q.checkpointRunning then Exit
    else Wait
  }

  function AfterTake(q: State, k: nat): State
    requires k <= |q.queue|
  {
    q.(queue := q.queue[k..],
       queuedBytes := SaturatingSub(q.queuedBytes, TotalBytes(q.queue[..k])),
       activeWrites := q.activeWrites + k,
       activeBytes := q.activeBytes + TotalBytes(q.queue[..k]),
       taken := q.taken + q.queue[..k])
  }

  function AfterRunCheckpoint(q: State): State {
    q.(checkpointPending := false, checkpointRunning := true, checkpoints := q.checkpoints + 1)
  }

  function AfterExit(q: State): State { q.(shutdown := true) }

  function Complete(q: State, batch: seq<Job>): State {
    q.(activeWrites := SaturatingSub(q.activeWrites, |batch|),
       activeBytes := SaturatingSub(q.activeBytes, TotalBytes(batch)),
       released := q.released + multiset(batch))
  }

  function FinishCheckpoint(q: State): State { q.(checkpointRunning := false) }

  function Cleared(q: State): State {
    q.(shutdown := true, producersFinished := true, queue := [], queuedBytes := 0, discarded := q.discarded + q.queue)
  }

  function FailCheckpoint(q: State): State { Cleared(q.(checkpointRunning := false)) }

  function FinishProducing(q: State, stop: bool): State {
    if stop then Cleared(q) else q.(producersFinished := true)
  }

  // ------------------------------------------------------------------ invariant

  /** `loads[w]` is the batch that write worker `w` has taken and not released. */
  ghost predicate Counted(l: Limits, q: State, loads: seq<seq<Job>>) {
    && q.queuedBytes == TotalBytes(q.queue)
    && q.activeWrites == Tally(loads, Len)
    && q.activeBytes == Tally(loads, TotalBytes)
    && InFlight(q) <= l.count
    && (l.bytes > 0 && InFlight(q) > 1 ==> q.queuedBytes + q.activeBytes <= l.bytes)
  }

  /** A pending checkpoint waits behind every accepted job; a running one is alone. */
  ghost predicate Barrier(l: Limits, q: State) {
    && !(q.checkpointPending && q.checkpointRunning)
    && (q.checkpointRunning ==> q.queue == [] && q.activeWrites == 0)
    && (if CheckpointEvery(l) > 0
        then q.attempted == |q.accepted|
          && q.checkpoints + (if q.checkpointPending then 1 else 0) == q.attempted / CheckpointEvery(l)
        else !q.checkpointPending && !q.checkpointRunning && q.checkpoints == 0)
  }

  /** First in, first out, and every accepted job is in exactly one place. */
  ghost predicate Conserved(q: State, loads: seq<seq<Job>>) {
    && q.accepted == q.taken + q.queue + q.discarded
    && multiset(q.taken) == Gather(loads, AsBag) + q.released
    && (q.shutdown ==> q.queue == [])
    && (q.discarded != [] ==> q.shutdown)
  }

  /** Until the store is known to refuse batches, only one batch is out. */
  ghost predicate OneBatch(capability: Capability, loads: seq<seq<Job>>) {
    capability != Unsupported ==> forall i, j :: 0 <= i < j < |loads| ==> loads[i] == [] || loads[j] == []
  }

  ghost predicate Coherent(l: Limits, q: State, loads: seq<seq<Job>>) {
    l.count >= 1 && Counted(l, q, loads) && Barrier(l, q) && Conserved(q, loads)
  }

  lemma InitialIsCoherent(l: Limits, loads: seq<seq<Job>>)
    requires l.count >= 1 && forall i :: 0 <= i < |loads| ==> loads[i] == []
    ensures Coherent(l, Initial, loads)
  {
    TallyZero(loads, Len);
    TallyZero(loads, TotalBytes);
    GatherEmpty(loads, AsBag);
  }

  lemma TotalOfOne(job: Job)
    ensures TotalBytes([job]) == |job.bytes|
  {
    assert Tally([job][1..], JobBytes) == 0;
  }

  /** An accepted job keeps both limits, the barrier and the order. */
  lemma EnqueueKeepsCoherent(l: Limits, q: State, loads: seq<seq<Job>>, job: Job)
    requires Coherent(l, q, loads) && Admit(l, q, job, false) == Accepted
    ensures Coherent(l, Enqueue(l, q, job), loads)
  {
    var q' := Enqueue(l, q, job);
    TallyConcat(q.queue, [job], JobBytes);
    assert Counted(l, q', loads);
    if CheckpointEvery(l) > 0 { NextQuotient(q.attempted, CheckpointEvery(l)); }
    assert Barrier(l, q');
  }

  lemma BatchLengthBound(queue: seq<Job>, target: nat, budget: nat, k: nat, total: nat)
    requires k <= |queue|
    ensures BatchLength(queue, target, budget, k, total) <= if k < target then target else k
    decreases |queue| - k
  {
  }

  /** Taking a batch moves it from the queue to the worker and loses nothing. */
  lemma TakeKeepsCoherent(l: Limits, q: State, loads: seq<seq<Job>>, w: nat, k: nat)
    requires Coherent(l, q, loads) && w < |loads| && loads[w] == [] && 1 <= k <= |q.queue|
    ensures Coherent(l, AfterTake(q, k), loads[w := q.queue[..k]])
    ensures TotalBytes(q.queue[..k]) <= q.queuedBytes
  {
    var batch, q' := q.queue[..k], AfterTake(q, k);
    assert q.queue == batch + q.queue[k..];
    TallyConcat(batch, q.queue[k..], JobBytes);
    TallyUpdate(loads, w, batch, Len);
    TallyUpdate(loads, w, batch, TotalBytes);
    assert Counted(l, q', loads[w := batch]);
    TakeKeepsConserved(q, loads, w, k);
  }

  lemma TakeKeepsConserved(q: State, loads: seq<seq<Job>>, w: nat, k: nat)
    requires Conserved(q, loads) && w < |loads| && loads[w] == [] && 1 <= k <= |q.queue|
    ensures Conserved(AfterTake(q, k), loads[w := q.queue[..k]])
  {
    var batch := q.queue[..k];
    GatherUpdate(loads, w, batch, AsBag);
    assert q.queue == batch + q.queue[k..];
    assert AsBag(loads[w]) == multiset{} && AsBag(batch) == multiset(batch);
    assert Gather(loads[w := batch], AsBag) == Gather(loads, AsBag) + multiset(batch);
    assert multiset(q.taken + batch) == multiset(q.taken) + multiset(batch);
    assert q.taken + q.queue + q.discarded == (q.taken + batch) + q.queue[k..] + q.discarded;
  }

  lemma ShutdownMeansEmpty(l: Limits, q: State, loads: seq<seq<Job>>)
    requires Coherent(l, q, loads)
    ensures l.count >= 1 && (q.shutdown ==> q.queue == [])
  {
    hide Counted, Barrier;
  }

  /** Releasing a batch subtracts exactly what taking it added: no subtraction saturates. */
  lemma CompleteKeepsCoherent(l: Limits, q: State, loads: seq<seq<Job>>, w: nat)
    requires Coherent(l, q, loads) && w < |loads|
    ensures |loads[w]| <= q.activeWrites && TotalBytes(loads[w]) <= q.activeBytes
    ensures Coherent(l, Complete(q, loads[w]), loads[w := []])
  {
    hide Conserved;
    TallyHolds(loads, w, Len);
    TallyHolds(loads, w, TotalBytes);
    TallyUpdate(loads, w, [], Len);
    TallyUpdate(loads, w, [], TotalBytes);
    CompleteKeepsConserved(q, loads, w);
  }

  lemma CompleteKeepsConserved(q: State, loads: seq<seq<Job>>, w: nat)
    requires Conserved(q, loads) && w < |loads|
    ensures Conserved(Complete(q, loads[w]), loads[w := []])
  {
    GatherUpdate(loads, w, [], AsBag);
    assert AsBag(loads[w]) == multiset(loads[w]) && AsBag([]) == multiset{};
    assert Gather(loads[w := []], AsBag) + multiset(loads[w]) == Gather(loads, AsBag);
  }

  lemma CheckpointKeepsCoherent(l: Limits, q: State, loads: seq<seq<Job>>)
    requires Coherent(l, q, loads) && q.queue == [] && q.checkpointPending && q.activeWrites == 0
    ensures Coherent(l, AfterRunCheckpoint(q), loads)
  {
  }

  lemma ClosingKeepsCoherent(l: Limits, q: State, loads: seq<seq<Job>>)
    requires Coherent(l, q, loads)
    ensures Coherent(l, Cleared(q), loads)
    ensures Coherent(l, FinishCheckpoint(q), loads)
    ensures Coherent(l, FailCheckpoint(q), loads)
    ensures forall stop :: Coherent(l, FinishProducing(q, stop), loads)
    ensures q.queue == [] ==> Coherent(l, AfterExit(q), loads)
  {
    assert q.discarded != [] ==> q.queue == [];
    assert q.taken + q.queue + q.discarded == q.taken + [] + (q.discarded + q.queue);
  }

  // ------------------------------------------------------------- consequences

  /** When a checkpoint's action runs, nothing is queued or being written: every accepted
      job has been released or was discarded by a shutdown. So the checkpoint sees all
      accepted writes if and only if no shutdown has found any job in the queue. */
  lemma CheckpointSeesAllWrites(l: Limits, q: State, loads: seq<seq<Job>>)
    requires Coherent(l, q, loads) && q.checkpointRunning
    ensures q.queue == [] && forall i :: 0 <= i < |loads| ==> loads[i] == []
    ensures multiset(q.accepted) == q.released + multiset(q.discarded)
    ensures q.released == multiset(q.accepted) <==> q.discarded == []
    ensures !q.shutdown ==> q.discarded == []
    ensures CheckpointEvery(l) > 0 && q.checkpoints == |q.accepted| / CheckpointEvery(l)
  {
    forall i | 0 <= i < |loads| ensures loads[i] == [] {
      TallyHolds(loads, i, Len);
    }
    GatherEmpty(loads, AsBag);
    assert q.accepted == q.taken + q.discarded;
    assert |multiset(q.discarded)| == |q.discarded|;
  }

  /** The configured limits hold at every step: the byte budget is exceeded only by a
      single oversized job that has the pipeline to itself. */
  lemma LimitsHold(l: Limits, q: State, loads: seq<seq<Job>>)
    requires Coherent(l, q, loads)
    ensures |q.queue| + Tally(loads, Len) <= l.count
    ensures l.bytes > 0 && TotalBytes(q.queue) + Tally(loads, TotalBytes) > l.bytes ==>
      |q.queue| + Tally(loads, Len) == 1
  {
    if |q.queue| + Tally(loads, Len) == 0 {
      forall i | 0 <= i < |loads| ensures TotalBytes(loads[i]) == 0 {
        TallyHolds(loads, i, Len);
      }
      TallyZero(loads, TotalBytes);
    }
  }

  /** A blind copy with an interval starts a checkpoint each time so many writes have been
      accepted, or has it pending; any other copy never does. */
  lemma CheckpointsAreCounted(l: Limits, q: State, loads: seq<seq<Job>>)
    requires Coherent(l, q, loads)
    ensures if l.mode == BlindWrite && l.interval.Some? && l.interval.value > 0
      then q.checkpoints + (if q.checkpointPending then 1 else 0) == |q.accepted| / l.interval.value
      else q.checkpoints == 0 && !q.checkpointPending && !q.checkpointRunning
  {
    hide Counted, Conserved;
  }

  /** Without a shutdown the jobs are taken in exactly the order they were accepted. */
  lemma FirstInFirstOut(l: Limits, q: State, loads: seq<seq<Job>>)
    requires Coherent(l, q, loads)
    ensures q.taken <= q.accepted
    ensures !q.shutdown ==> q.queue == q.accepted[|q.taken|..]
    ensures multiset(q.accepted) == multiset(q.queue) + Gather(loads, AsBag) + q.released + multiset(q.discarded)
  {
    assert q.accepted == q.taken + (q.queue + q.discarded);
  }

  /** A batch is the longest prefix that fits: at most `target` jobs, within the byte
      budget unless it is a single job, and not extendable. */
  lemma {:induction false} BatchIsLongestFit(queue: seq<Job>, target: nat, budget: nat, k: nat)
    requires 1 <= k <= |queue| && k <= target
    requires k == 1 || budget == 0 || TotalBytes(queue[..k]) <= budget
    ensures var n := BatchLength(queue, target, budget, k, TotalBytes(queue[..k]));
      && k <= n <= target
      && (n == 1 || budget == 0 || TotalBytes(queue[..n]) <= budget)
      && (n == target || n == |queue| || (budget > 0 && TotalBytes(queue[..n + 1]) > budget))
    decreases |queue| - k
  {
    if k < |queue| {
      assert queue[..k + 1] == queue[..k] + [queue[k]];
      TallyConcat(queue[..k], [queue[k]], JobBytes);
      if k < target && !(budget > 0 && TotalBytes(queue[..k]) + |queue[k].bytes| > budget) {
        BatchIsLongestFit(queue, target, budget, k + 1);
      }
    }
  }

  /** While the store may still support batches, one batch is out at a time; once it is
      known not to, every batch is a single job. */
  lemma TakeKeepsOneBatch(l: Limits, q: State, loads: seq<seq<Job>>, w: nat, stop: bool, capability: Capability)
    requires Coherent(l, q, loads) && OneBatch(capability, loads) && w < |loads|
    requires NextAction(l, q, stop, capability).Take?
    ensures var k := NextAction(l, q, stop, capability).count;
      && 1 <= k <= |q.queue|
      && (capability == Unsupported ==> k == 1)
      && OneBatch(StartsProbe(q, capability, false), loads[w := q.queue[..k]])
  {
    var k := NextAction(l, q, stop, capability).count;
    BatchLengthBound(q.queue, TargetLength(l, q, capability), l.bytes, 1, |q.queue[0].bytes|);
    if capability != Unsupported {
      forall i | 0 <= i < |loads| ensures loads[i] == [] {
        TallyHolds(loads, i, Len);
      }
    }
  }

  /** Pops the longest fitting prefix of the queue, job by job. */
  method PopBatch(queue: seq<Job>, target: nat, budget: nat) returns (batch: seq<Job>, rest: seq<Job>, total: nat)
    requires queue != []
    ensures batch == queue[..BatchLength(queue, target, budget, 1, |queue[0].bytes|)]
    ensures rest == queue[|batch|..] && total == TotalBytes(batch)
  {
    batch, rest, total := [queue[0]], queue[1..], |queue[0].bytes|;
    ghost var n := BatchLength(queue, target, budget, 1, total);
    assert queue[..1] == [queue[0]];
    TotalOfOne(queue[0]);
    while |batch| < target && rest != [] && !(budget > 0 && total + |rest[0].bytes| > budget)
      invariant 1 <= |batch| <= |queue| && batch == queue[..|batch|] && rest == queue[|batch|..]
      invariant total == TotalBytes(batch)
      invariant n == BatchLength(queue, target, budget, |batch|, total)
    {
      TotalOfOne(rest[0]);
      TallyConcat(batch, [rest[0]], JobBytes);
      assert queue[..|batch| + 1] == batch + [rest[0]];
      total := total + |rest[0].bytes|;
      batch := batch + [rest[0]];
      rest := rest[1..];
    }
  }

  // ------------------------------------------------------------------ the class

  class ThreadedWriteQueue {
    const limits: Limits
    var queue: seq<Job>
    var queuedWriteBytes: nat
    var activeWrites: nat
    var activeWriteBytes: nat
    var attemptedWriteCount: nat
    var producersFinished: bool
    var isShutdown: bool
    var checkpointPending: bool
    var checkpointRunning: bool
    ghost var accepted: seq<Job>
    ghost var taken: seq<Job>
    ghost var discarded: seq<Job>
    ghost var released: multiset<Job>
    ghost var checkpoints: nat
    ghost var loads: seq<seq<Job>>

    ghost function Model(): State
      reads this
    {
      State(queue, queuedWriteBytes, activeWrites, activeWriteBytes, attemptedWriteCount, producersFinished,
            isShutdown, checkpointPending, checkpointRunning, accepted, taken, discarded, released, checkpoints)
    }

    ghost predicate Valid()
      reads this
    {
      Coherent(limits, Model(), loads)
    }

    constructor (limits: Limits, ghost writers: nat)
      requires limits.count >= 1
      ensures this.limits == limits && Valid() && Model() == Initial
      ensures loads == seq(writers, i => [])
    {
      this.limits := limits;
      queue, queuedWriteBytes, activeWrites, activeWriteBytes, attemptedWriteCount := [], 0, 0, 0, 0;
      producersFinished, isShutdown, checkpointPending, checkpointRunning := false, false, false, false;
      accepted, taken, discarded, released, checkpoints := [], [], [], multiset{}, 0;
      loads := seq(writers, i => []);
      new;
      InitialIsCoherent(limits, loads);
    }

    /** One pass through the admission loop; `MustWait` is the wait on the condition
        variable, after which the pass is repeated. */
    method TryEnqueue(job: Job, stopRequested: bool) returns (admission: Admission)
      requires Valid()
      modifies this
      ensures Valid() && loads == old(loads)
      ensures admission == Admit(limits, old(Model()), job, stopRequested)
      ensures Model() == if admission == Accepted then Enqueue(limits, old(Model()), job) else old(Model())
    {
      hide Coherent;
      if isShutdown || stopRequested {
        return Refused;
      }
      var inFlightWrites := |queue| + activeWrites;
      var writeLimitReached := inFlightWrites >= limits.count;
      var byteLimitReached := inFlightWrites > 0 && limits.bytes > 0
        && queuedWriteBytes + activeWriteBytes + |job.bytes| > limits.bytes;
      if checkpointPending || checkpointRunning || writeLimitReached || byteLimitReached {
        return MustWait;
      }
      EnqueueKeepsCoherent(limits, Model(), loads, job);
      queuedWriteBytes := queuedWriteBytes + |job.bytes|;
      if limits.mode == BlindWrite && limits.interval.Some? && limits.interval.value > 0 {
        attemptedWriteCount := attemptedWriteCount + 1;
        if attemptedWriteCount % limits.interval.value == 0 {
          checkpointPending := true;
        }
      }
      queue := queue + [job];
      accepted := accepted + [job];
      return Accepted;
    }

    /** How many jobs the next batch may hold; two queued jobs start a probe. */
    method ChooseTarget(capability: Capability) returns (target: nat, after: Capability)
      requires Valid()
      ensures target == TargetLength(limits, Model(), capability)
      ensures after == StartsProbe(Model(), capability, false)
    {
      target, after := 1, capability;
      match capability {
        case Supported => if limits.count > 1 { target := limits.count; }
        case Unknown => if |queue| >= 2 { after := Probing; target := 2; }
        case _ =>
      }
    }

    /** One pass through a write worker's loop: what to do next, and the capability
        after a probe may have begun. */
    method TryNextAction(ghost writer: nat, stopRequested: bool, capability: Capability)
      returns (action: Action, batch: seq<Job>, after: Capability)
      requires Valid() && writer < |loads| && loads[writer] == []
      modifies this
      ensures Valid()
      ensures action == NextAction(limits, old(Model()), stopRequested, capability)
      ensures after == StartsProbe(old(Model()), capability, old(Stalled(Model(), capability)))
      ensures action.Take? ==> action.count <= |old(queue)| && batch == old(queue)[..action.count]
      ensures action.Take? ==> Model() == AfterTake(old(Model()), action.count)
      ensures action.RunCheckpoint? ==> Model() == AfterRunCheckpoint(old(Model()))
      ensures action.Exit? ==> Model() == AfterExit(old(Model()))
      ensures action.Wait? ==> Model() == old(Model())
      ensures loads == if action.Take? then old(loads)[writer := batch] else old(loads)
    {
      hide Coherent, TotalBytes, TargetLength, BatchLength;
      if capability != Unsupported && activeWrites > 0 {
        return Wait, [], capability;
      }
      var target;
      target, after := ChooseTarget(capability);
      if queue != [] {
        batch := TakeBatch(writer, target);
        action := Take(|batch|);
        return;
      }
      if checkpointPending && !checkpointRunning && activeWrites == 0 {
        CheckpointKeepsCoherent(limits, Model(), loads);
        checkpointPending, checkpointRunning := false, true;
        checkpoints := checkpoints + 1;
        return RunCheckpoint, [], after;
      }
      if (producersFinished || isShutdown || stopRequested) && activeWrites == 0 && !checkpointRunning {
        ClosingKeepsCoherent(limits, Model(), loads);
        isShutdown := true;
        return Exit, [], after;
      }
      return Wait, [], after;
    }

    /** Moves the popped batch out of the queue and accounts for it. */
    method TakeBatch(ghost writer: nat, target: nat) returns (batch: seq<Job>)
      requires Valid() && queue != [] && writer < |loads| && loads[writer] == []
      modifies this
      ensures Valid()
      ensures var k := BatchLength(old(queue), target, limits.bytes, 1, |old(queue)[0].bytes|);
        batch == old(queue)[..k] && Model() == AfterTake(old(Model()), k) && loads == old(loads)[writer := batch]
    {
      hide Coherent;
      var rest, total;
      batch, rest, total := PopBatch(queue, target, limits.bytes);
      TakeKeepsCoherent(limits, Model(), loads, writer, |batch|);
      queue := rest;
      queuedWriteBytes := SaturatingSub(queuedWriteBytes, total);
      activeWrites := activeWrites + |batch|;
      activeWriteBytes := activeWriteBytes + total;
      taken := taken + batch;
      loads := loads[writer := batch];
    }

    /** Run when a write worker drops its guard over the batch it took. */
    method CompleteWriteBatch(ghost writer: nat, completedJobs: nat, blockBytesLen: nat)
      requires Valid() && writer < |loads|
      requires completedJobs == |loads[writer]| && blockBytesLen == TotalBytes(loads[writer])
      modifies this
      ensures Valid() && Model() == Complete(old(Model()), old(loads[writer])) && loads == old(loads)[writer := []]
    {
      hide Coherent, TotalBytes;
      CompleteKeepsCoherent(limits, Model(), loads, writer);
      activeWrites := SaturatingSub(activeWrites, completedJobs);
      activeWriteBytes := SaturatingSub(activeWriteBytes, blockBytesLen);
      released := released + multiset(loads[writer]);
      loads := loads[writer := []];
    }

    method FinishRunningCheckpoint()
      requires Valid()
      modifies this
      ensures Valid() && Model() == FinishCheckpoint(old(Model())) && loads == old(loads)
    {
      hide Coherent, TotalBytes;
      ClosingKeepsCoherent(limits, Model(), loads);
      checkpointRunning := false;
    }

    method FailRunningCheckpoint()
      requires Valid()
      modifies this
      ensures Valid() && Model() == FailCheckpoint(old(Model())) && loads == old(loads)
    {
      hide Coherent, TotalBytes;
      ClosingKeepsCoherent(limits, Model(), loads);
      checkpointRunning := false;
      discarded := discarded + queue;
      isShutdown, producersFinished, queue, queuedWriteBytes := true, true, [], 0;
    }

    method FinishProducers(stopRequested: bool)
      requires Valid()
      modifies this
      ensures Valid() && Model() == FinishProducing(old(Model()), stopRequested) && loads == old(loads)
    {
      hide Coherent;
      ClosingKeepsCoherent(limits, Model(), loads);
      assert Coherent(limits, FinishProducing(Model(), stopRequested), loads);
      producersFinished := true;
      if stopRequested {
        discarded := discarded + queue;
        isShutdown, queue, queuedWriteBytes := true, [], 0;
      }
    }

    method RequestShutdown()
      requires Valid()
      modifies this
      ensures Valid() && Model() == Cleared(old(Model())) && loads == old(loads)
    {
      hide Coherent, TotalBytes;
      ClosingKeepsCoherent(limits, Model(), loads);
      discarded := discarded + queue;
      isShutdown, producersFinished, queue, queuedWriteBytes := true, true, [], 0;
    }
  }
}
