/** The single-worker copy: one traversal loop that buffers writes, publishes them in
    batches with bounded in-flight work, and drains them at checkpoints and at the end. */
module SingleWorker {
  import opened Options
  import opened BlockGraph
  import opened FailureTracker
  import opened Ledger
  import opened Destination
  import opened Frontier
  import opened Outcome
  import opened CopyReport
  import opened CopyAccounts
  import opened WriteLine
  import opened SingleLine
  import opened CopyProtocol
  import opened CopyPredicted
  import opened CopyTheorem
  import opened Multiples
  import CopyControl
  import WorkQueue
  import WriteQueue

  class SingleWorkerCopy {
    const env: Env
    const tracker: CopyFailureTracker
    var queue: seq<WorkQueue.Item>
    var ledger: Ledger
    var pendingWrites: seq<Publication>
    var bufferedJobs: seq<Job>
    var bufferedBytes: nat
    var inFlightCount: nat
    var inFlightBytes: nat
    var capability: WriteQueue.Capability
    var stopRequested: bool
    ghost var checkpointsRun: nat
    ghost var checkpointError: Option<string>

    ghost predicate Tracked()
      reads this, tracker
    {
      tracker.Valid() && tracker.log == ledger.log
    }

    /** The books balance when `hand` is in the hands of the traversal loop and the
        completions in `recording` are still to be recorded; and what is known about batch
        support is true, and known since the first answer. */
    ghost predicate Steady(hand: Hand, recording: seq<Completion>)
      reads this
    {
      && Line(env, ledger, bufferedJobs, pendingWrites, hand, recording)
      && Probed(env.store, capability, ledger, pendingWrites, recording)
    }

    /** The counters equal the sums over the pending publications, and the limits hold. */
    ghost predicate InLimits()
      reads this
    {
      InFlight(env.limits, bufferedJobs, bufferedBytes, pendingWrites, inFlightCount, inFlightBytes)
    }

    constructor (env: Env)
      requires env.limits.count >= 1
      ensures this.env == env && fresh(tracker) && ledger == Opened(env) && queue == WorkQueue.RootItems(env.roots)
      ensures Tracked() && Steady(Empty, []) && InLimits() && checkpointsRun == 0 && checkpointError == None
    {
      hide Line, Probed, InFlight, CopyFailureTracker.Valid;
      this.env := env;
      tracker := new CopyFailureTracker();
      queue, ledger := WorkQueue.RootItems(env.roots), Opened(env);
      pendingWrites, bufferedJobs, bufferedBytes, inFlightCount, inFlightBytes := [], [], 0, 0, 0;
      capability, stopRequested, checkpointsRun, checkpointError := WriteQueue.Unknown, false, 0, None;
      new;
      InFlightOpens(env.limits);
      LineOpens(env);
      ProbedOpens(env);
    }

    // ------------------------------------------------------------- the destination store

    /** The destination's answer to one write. */
    method PutBlock(job: Job) returns (error: Option<string>)
      modifies this`ledger
      ensures env.store.Predictable? ==> error == WriteError(env, job.block)
      ensures ledger == if error.None? then Land(env, old(ledger), job) else old(ledger)
    {
      match env.store {
        case Predictable(errors, _) => error := if job.block in errors then Some(errors[job.block]) else None;
        case Erratic(_, _) =>
          var message: string := *;
          if * { error := Some(message); } else { error := None; }
      }
      if error.None? { ledger := Land(env, ledger, job); }
    }

    /** The destination's answer to a batch. */
    method PutBatch(jobs: seq<Job>) returns (answer: WriteAnswer)
      modifies this`ledger
      ensures BatchAllowed(env, jobs, answer)
      ensures answer.BatchOk? ==> ledger == LandAll(env, old(ledger), jobs)
      ensures answer.BatchUnsupported? ==> ledger == old(ledger)
      ensures answer.BatchFailed? ==> ledger == LandSome(env, old(ledger), jobs, answer.landed)
    {
      var message: string := *;
      var landed: set<BlockId> := *;
      match env.store {
        case Predictable(errors, batches) =>
          var fails := exists j :: 0 <= j < |jobs| && jobs[j].block in errors;
          answer := if !batches then BatchUnsupported else if fails then BatchFailed(message, landed) else BatchOk;
        case Erratic(_, support) =>
          if {
            case support != Some(false) => answer := BatchOk;
            case support != Some(true) => answer := BatchUnsupported;
            case support != Some(false) => answer := BatchFailed(message, landed);
          }
      }
      if answer.BatchOk? {
        ledger := LandAll(env, ledger, jobs);
      } else if answer.BatchFailed? {
        ledger := LandSome(env, ledger, jobs, landed);
      }
    }

    // ------------------------------------------------------------------ publications

    method PublishOneByOne(jobs: seq<Job>, ghost p: Parts) returns (done: seq<Completion>)
      requires Kept(env, ledger, p) && JobsGenuine(env, jobs) && BlocksOf(jobs) <= p.waiting
      modifies this`ledger
      ensures Answered(env, old(ledger), p, jobs, done, ledger)
      ensures ledger.landed == old(ledger.landed) + WellDone(done)
    {
      hide Kept, Answered, JobsGenuine;
      done := [];
      AnsweredNone(env, ledger, p, jobs);
      for i := 0 to |jobs|
        invariant i == |done| && AnsweredUpTo(env, old(ledger), p, jobs, done, ledger)
      {
        hide AnsweredUpTo;
        ghost var before := ledger;
        var job := jobs[i];
        var error := PutBlock(job);
        AnsweredOneMore(env, old(ledger), p, jobs, done, before, error);
        done := done + [Completion(job.block, |job.bytes|, job.countAsCopied, error)];
      }
      AnsweredWhole(env, old(ledger), p, jobs, done, ledger);
    }

    /** Every path returns exactly one completion per job, in job order. A batch call settles
        whether the store takes batches, on the truth if that is fixed; after a publication
        of any jobs it is settled, and a settled truth is never taken back. */
    method PublishBatch(jobs: seq<Job>, ghost p: Parts) returns (done: seq<Completion>)
      requires Kept(env, ledger, p) && JobsGenuine(env, jobs) && BlocksOf(jobs) <= p.waiting
      requires Learned(env.store, capability)
      modifies this`ledger, this`capability
      ensures Answered(env, old(ledger), p, jobs, done, ledger)
      ensures Learned(env.store, capability)
      ensures jobs != [] || Settled(old(capability)) ==> Settled(capability)
      ensures FixedSupport(env.store).Some? && Settled(old(capability)) ==> capability == old(capability)
      ensures !OffersBatch(jobs, old(capability)) ==> capability == old(capability)
    {
      hide Kept, Answered, JobsGenuine;
      var probingSingleWrite := |jobs| == 1 && (capability == WriteQueue.Unknown || capability == WriteQueue.Probing);
      if |jobs| <= 1 && !probingSingleWrite {
        done := PublishOneByOne(jobs, p);
        return;
      }
      ghost var before := ledger;
      var answer := PutBatch(jobs);
      if answer.BatchOk? {
        capability := WriteQueue.Supported;
        done := Completions(jobs, None);
        AnsweredWell(env, before, p, jobs);
      } else if answer.BatchUnsupported? {
        capability := WriteQueue.Unsupported;
        done := PublishOneByOne(jobs, p);
      } else {
        capability := WriteQueue.Supported;
        done := Completions(jobs, Some(answer.message));
        AnsweredBadly(env, before, p, jobs, answer.message, answer.landed);
      }
    }

    /** Some submitted publication gets its turn: its writes are made. */
    method Execute(k: nat, ghost hand: Hand)
      requires Steady(hand, []) && InLimits() && k < |pendingWrites| && pendingWrites[k].Submitted?
      modifies this`ledger, this`capability, this`pendingWrites
      ensures Steady(hand, []) && InLimits() && OnlySettles(old(ledger), ledger) && ledger.log == old(ledger.log)
      ensures |pendingWrites| == |old(pendingWrites)| && pendingWrites[k].Executed? && Settled(capability)
      ensures forall j :: 0 <= j < |pendingWrites| && j != k ==> pendingWrites[j] == old(pendingWrites)[j]
    {
      hide Line, Probed, InFlight, Kept, JobsGenuine, Unasked;
      var jobs := pendingWrites[k].jobs;
      LineOffers(env, ledger, bufferedJobs, pendingWrites, hand, k);
      SubmittedIsNotEmpty(env, bufferedJobs, pendingWrites, k);
      ProbedIsTrue(env.store, capability, ledger, pendingWrites, []);
      var done := PublishBatch(jobs, LineParts(bufferedJobs, pendingWrites, hand, []));
      LineExecutes(env, old(ledger), ledger, bufferedJobs, pendingWrites, hand, k, done);
      ExecuteKeepsInFlight(env.limits, bufferedJobs, bufferedBytes, pendingWrites, inFlightCount, inFlightBytes, k,
          done);
      pendingWrites := pendingWrites[k := Executed(jobs, done)];
      ProbedOnceSettled(env.store, capability, ledger, pendingWrites, []);
    }

    /** The next completed publication, after any number of others made progress. */
    method NextCompletions(ghost hand: Hand) returns (done: seq<Completion>)
      requires Steady(hand, []) && InLimits() && pendingWrites != []
      modifies this`ledger, this`capability, this`pendingWrites
      ensures Steady(hand, done) && DoneHonest(env, done)
      ensures OnlySettles(old(ledger), ledger) && ledger.log == old(ledger.log)
      ensures |pendingWrites| < |old(pendingWrites)| && inFlightCount >= |done| && inFlightBytes >= DoneBytes(done)
      ensures InFlight(env.limits, bufferedJobs, bufferedBytes, pendingWrites, inFlightCount - |done|,
          inFlightBytes - DoneBytes(done))
    {
      hide Line, Probed, InFlight, OnlySettles, DoneHonest;
      ghost var n := |pendingWrites|;
      SettlesNothing(ledger);
      var turns := |pendingWrites|;
      while turns > 0
        invariant Steady(hand, []) && InLimits() && OnlySettles(old(ledger), ledger) && ledger.log == old(ledger.log)
        invariant |pendingWrites| == n
      {
        turns := turns - 1;
        var j: int := *;
        if 0 <= j < |pendingWrites| && pendingWrites[j].Submitted? {
          ghost var before := ledger;
          Execute(j, hand);
          SettlesTwice(old(ledger), before, ledger);
        }
      }
      var k: int := *;
      if k < 0 || k >= |pendingWrites| { k := 0; }
      if pendingWrites[k].Submitted? {
        ghost var before := ledger;
        Execute(k, hand);
        SettlesTwice(old(ledger), before, ledger);
      }
      done := pendingWrites[k].done;
      LineTakesOut(env, ledger, bufferedJobs, pendingWrites, hand, k);
      TakeOutFits(env, ledger, bufferedJobs, bufferedBytes, pendingWrites, inFlightCount, inFlightBytes, hand, k);
      ProbedBeforeAnswers(env.store, capability, ledger, pendingWrites, [], k);
      pendingWrites := pendingWrites[..k] + pendingWrites[k + 1..];
      ProbedOnceSettled(env.store, capability, ledger, pendingWrites, done);
    }

    /** Adds the completions to the metrics or the failures. No subtraction saturates. */
    method RecordWriteCompletions(done: seq<Completion>, ghost hand: Hand)
      requires Tracked() && Steady(hand, done) && DoneHonest(env, done)
      requires inFlightCount >= |done| && inFlightBytes >= DoneBytes(done)
      requires InFlight(env.limits, bufferedJobs, bufferedBytes, pendingWrites, inFlightCount - |done|,
          inFlightBytes - DoneBytes(done))
      modifies this`ledger, this`inFlightCount, this`inFlightBytes, tracker
      ensures Tracked() && Steady(hand, []) && InLimits() && OnlySettles(old(ledger), ledger)
      ensures inFlightCount == old(inFlightCount) - |done| && inFlightBytes == old(inFlightBytes) - DoneBytes(done)
    {
      hide Line, Probed, InFlight, OnlySettles, OneHonest, CopyFailureTracker.Valid;
      SettlesNothing(ledger);
      inFlightCount := WriteQueue.SaturatingSub(inFlightCount, |done|);
      assert done[0..] == done;
      for i := 0 to |done|
        invariant Tracked() && Steady(hand, done[i..]) && OnlySettles(old(ledger), ledger)
        invariant inFlightBytes >= DoneBytes(done[i..])
        invariant inFlightBytes - DoneBytes(done[i..]) == old(inFlightBytes) - DoneBytes(done)
        invariant inFlightCount == old(inFlightCount) - |done|
      {
        assert done[i..][0] == done[i] && done[i..][1..] == done[i + 1..];
        inFlightBytes := WriteQueue.SaturatingSub(inFlightBytes, done[i].bytesLen);
        ghost var before := ledger;
        assert OneHonest(env, done[i]);
        RecordOne(done[i], hand, done[i..]);
        SettlesTwice(old(ledger), before, ledger);
      }
      assert done[|done|..] == [];
    }

    method RecordOne(c: Completion, ghost hand: Hand, ghost rest: seq<Completion>)
      requires rest != [] && rest[0] == c && Tracked() && Steady(hand, rest) && OneHonest(env, c)
      modifies this`ledger, tracker
      ensures Tracked() && Steady(hand, rest[1..]) && OnlySettles(old(ledger), ledger)
    {
      hide Line, Probed, OnlySettles, OneHonest, CopyFailureTracker.Valid;
      LineRecords(env, ledger, bufferedJobs, pendingWrites, hand, rest);
      if c.error.Some? { tracker.Record(c.block, Template(WriteDestinationBlock, c.error.value)); }
      ProbedBeforeRecording(env.store, capability, ledger, pendingWrites, rest);
      ledger := Settle(ledger, c);
      ProbedOnceSettled(env.store, capability, ledger, pendingWrites, rest[1..]);
    }

    /** Waits for one publication and records it. */
    method RecordNext(ghost hand: Hand)
      requires Tracked() && Steady(hand, []) && InLimits() && pendingWrites != []
      modifies this`ledger, this`capability, this`pendingWrites, this`inFlightCount, this`inFlightBytes, tracker
      ensures Tracked() && Steady(hand, []) && InLimits() && OnlySettles(old(ledger), ledger)
      ensures |pendingWrites| < |old(pendingWrites)|
    {
      hide Line, Probed, InFlight, OnlySettles, DoneHonest;
      var done := NextCompletions(hand);
      ghost var between := ledger;
      RecordWriteCompletions(done, hand);
      SettlesTwice(old(ledger), between, ledger);
    }

    /** Waits until a publication of the given size fits. The wait always has something
        to wait for, because a publication is never larger than the limit. */
    method WaitForWriteCapacity(nextCount: nat, nextBytes: nat, ghost hand: Hand)
      requires Tracked() && Steady(hand, []) && InLimits() && nextCount <= env.limits.count
      modifies this`ledger, this`capability, this`pendingWrites, this`inFlightCount, this`inFlightBytes, tracker
      ensures Tracked() && Steady(hand, []) && InLimits() && OnlySettles(old(ledger), ledger)
      ensures inFlightCount + nextCount <= env.limits.count
      ensures inFlightCount > 0 && env.limits.bytes > 0 ==> inFlightBytes + nextBytes <= env.limits.bytes
    {
      hide Line, Probed, InFlight, OnlySettles, CopyFailureTracker.Valid;
      SettlesNothing(ledger);
      while inFlightCount + nextCount > env.limits.count
        || (inFlightCount > 0 && env.limits.bytes > 0 && inFlightBytes + nextBytes > env.limits.bytes)
        invariant Tracked() && Steady(hand, []) && InLimits() && OnlySettles(old(ledger), ledger)
        decreases |pendingWrites|
      {
        SomethingPending(env.limits, bufferedJobs, bufferedBytes, pendingWrites, inFlightCount, inFlightBytes);
        ghost var before := ledger;
        RecordNext(hand);
        SettlesTwice(old(ledger), before, ledger);
      }
    }

    method FlushPendingWrites(ghost hand: Hand)
      requires Tracked() && Steady(hand, []) && InLimits()
      modifies this`ledger, this`capability, this`pendingWrites, this`inFlightCount, this`inFlightBytes, tracker
      ensures Tracked() && Steady(hand, []) && InLimits() && OnlySettles(old(ledger), ledger)
      ensures pendingWrites == [] && inFlightCount == 0 && inFlightBytes == 0
    {
      hide Line, Probed, InFlight, OnlySettles, CopyFailureTracker.Valid;
      SettlesNothing(ledger);
      while pendingWrites != []
        invariant Tracked() && Steady(hand, []) && InLimits() && OnlySettles(old(ledger), ledger)
        decreases |pendingWrites|
      {
        ghost var before := ledger;
        RecordNext(hand);
        SettlesTwice(old(ledger), before, ledger);
      }
      SomethingPending(env.limits, bufferedJobs, bufferedBytes, pendingWrites, inFlightCount, inFlightBytes);
    }

    /** Publishes the whole buffer as one publication, once it fits. */
    method FlushBufferedWrites(ghost hand: Hand)
      requires Tracked() && Steady(hand, []) && InLimits()
      modifies this`ledger, this`capability, this`pendingWrites, this`bufferedJobs, this`bufferedBytes
      modifies this`inFlightCount, this`inFlightBytes, tracker
      ensures Tracked() && Steady(hand, []) && InLimits() && OnlySettles(old(ledger), ledger)
      ensures bufferedJobs == [] && bufferedBytes == 0
    {
      hide Line, Probed, InFlight, OnlySettles, CopyFailureTracker.Valid;
      SomethingPending(env.limits, bufferedJobs, bufferedBytes, pendingWrites, inFlightCount, inFlightBytes);
      if bufferedJobs == [] {
        SettlesNothing(ledger);
        return;
      }
      if |bufferedJobs| > 1 && capability == WriteQueue.Unknown {
        ProbedStarts(env.store, ledger, pendingWrites);
        capability := WriteQueue.Probing;
      }
      WaitForWriteCapacity(|bufferedJobs|, bufferedBytes, hand);
      Submit(hand);
    }

    method Submit(ghost hand: Hand)
      requires Steady(hand, []) && InLimits() && bufferedJobs != []
      requires inFlightCount + |bufferedJobs| <= env.limits.count
      requires inFlightCount > 0 && env.limits.bytes > 0 ==> inFlightBytes + bufferedBytes <= env.limits.bytes
      modifies this`pendingWrites, this`bufferedJobs, this`bufferedBytes, this`inFlightCount, this`inFlightBytes
      ensures Steady(hand, []) && InLimits() && bufferedJobs == [] && bufferedBytes == 0
    {
      hide Line, Probed, InFlight;
      LineFlushes(env, ledger, bufferedJobs, pendingWrites, hand);
      SubmitKeepsInFlight(env.limits, bufferedJobs, bufferedBytes, pendingWrites, inFlightCount, inFlightBytes);
      ProbedSubmits(env.store, capability, ledger, pendingWrites, bufferedJobs);
      pendingWrites := pendingWrites + [Submitted(bufferedJobs)];
      inFlightCount := inFlightCount + |bufferedJobs|;
      inFlightBytes := inFlightBytes + bufferedBytes;
      bufferedJobs, bufferedBytes := [], 0;
    }

    /** How many jobs the buffer collects before it is published. */
    function TargetLen(): (n: nat)
      reads this`capability
      requires env.limits.count >= 1
      ensures 1 <= n <= env.limits.count
    {
      match capability
      case Supported => env.limits.count
      case Unknown => if env.limits.count < 2 then 1 else 2
      case _ => 1
    }

    method BufferJob(job: Job)
      requires Tracked() && Steady(Passing(job.block), []) && InLimits() && GenuineJob(env, job)
      modifies this`ledger, this`capability, this`pendingWrites, this`bufferedJobs, this`bufferedBytes
      modifies this`inFlightCount, this`inFlightBytes, tracker
      ensures Tracked() && Steady(Empty, []) && InLimits() && OnlySettles(old(ledger), ledger)
      ensures var budget := env.limits.bytes;
        var target := if old(capability) == WriteQueue.Supported then env.limits.count
          else if old(capability) == WriteQueue.Unknown && env.limits.count >= 2 then 2 else 1;
        var room := |old(bufferedJobs)| < target && (budget > 0 ==> old(bufferedBytes) + |job.bytes| <= budget);
        var joined := if room then old(bufferedJobs) + [job] else [job];
        var size := (if room then old(bufferedBytes) else 0) + |job.bytes|;
        var full := |joined| >= target || (budget > 0 && size >= budget);
        && bufferedJobs == (if full then [] else joined)
        && (room && !full ==> unchanged(`pendingWrites) && ledger == old(ledger) && capability == old(capability))
    {
      hide Line, Probed, InFlight, OnlySettles, GenuineJob;
      SomethingPending(env.limits, bufferedJobs, bufferedBytes, pendingWrites, inFlightCount, inFlightBytes);
      var targetLen := TargetLen();
      SettlesNothing(ledger);
      if bufferedJobs != [] &&
        (|bufferedJobs| >= targetLen || (env.limits.bytes > 0 && bufferedBytes + |job.bytes| > env.limits.bytes)) {
        FlushBufferedWrites(Passing(job.block));
      }
      LinePushes(env, ledger, bufferedJobs, pendingWrites, job);
      PushKeepsInFlight(env.limits, bufferedJobs, bufferedBytes, pendingWrites, inFlightCount, inFlightBytes, job);
      bufferedBytes := bufferedBytes + |job.bytes|;
      bufferedJobs := bufferedJobs + [job];
      if |bufferedJobs| >= targetLen || (env.limits.bytes > 0 && bufferedBytes >= env.limits.bytes) {
        ghost var before := ledger;
        FlushBufferedWrites(Empty);
        SettlesTwice(old(ledger), before, ledger);
      }
    }

    /** A stop request may arrive at any time and is never withdrawn. */
    method PollInterrupt() returns (requested: bool)
      modifies this`stopRequested
      ensures requested == stopRequested && (old(stopRequested) ==> requested)
    {
      if * { stopRequested := true; }
      requested := stopRequested;
    }

    method DiscardBuffered()
      requires Tracked() && Steady(Empty, []) && InLimits()
      modifies this`ledger, this`bufferedJobs, this`bufferedBytes
      ensures Tracked() && Steady(Empty, []) && InLimits() && bufferedJobs == [] && bufferedBytes == 0
      ensures ledger == old(Discard(ledger, bufferedJobs))
    {
      hide Line, Probed, InFlight;
      LineDiscards(env, ledger, bufferedJobs, pendingWrites);
      DropKeepsInFlight(env.limits, bufferedJobs, bufferedBytes, pendingWrites, inFlightCount, inFlightBytes);
      DiscardFrame(ledger, bufferedJobs);
      ProbedQuietly(env.store, capability, ledger, Discard(ledger, bufferedJobs), pendingWrites);
      ledger := Discard(ledger, bufferedJobs);
      bufferedJobs, bufferedBytes := [], 0;
    }

    // ------------------------------------------------------------------ one block

    /** Notes the root and offers the block to the visited set. */
    method Arrive(item: WorkQueue.Item) returns (first: bool)
      requires Tracked() && Steady(Empty, []) && item.block in ReachableSet(env.source, env.roots)
      modifies this`ledger, tracker
      ensures var noted := NoteAt(old(ledger), item.root, item.block);
        && first == (item.block !in old(ledger.visited))
        && ledger == (if first then Visit(noted, item.block) else noted)
      ensures Tracked() && Steady(if first then Unread(item.block) else Empty, [])
    {
      hide Line, Probed;
      LineNotes(env, ledger, bufferedJobs, pendingWrites, item.root, item.block);
      tracker.NoteBlockRoot(item.root, item.block);
      ProbedQuietly(env.store, capability, ledger, NoteAt(ledger, item.root, item.block), pendingWrites);
      ledger := NoteAt(ledger, item.root, item.block);
      first := item.block !in ledger.visited;
      if first {
        LineVisits(env, ledger, bufferedJobs, pendingWrites, item.block);
        ProbedQuietly(env.store, capability, ledger, Visit(ledger, item.block), pendingWrites);
        ledger := Visit(ledger, item.block);
      }
    }

    /** Reads the block from the source and decodes it; a block that cannot be decoded is
        recorded as failed but still written. */
    method ReadAndDecode(b: BlockId) returns (found: bool)
      requires Tracked() && Steady(Unread(b), [])
      modifies this`ledger, tracker
      ensures found == Readable(env.source, b)
      ensures ledger == if found then Decode(env.source, CountRead(old(ledger)), b)
        else FailRead(env.source, CountRead(old(ledger)), b)
      ensures ledger.log.recorded == old(ledger.log.recorded) + SourceFailures(env.source, b)
      ensures Tracked() && Steady(if found then Held(b) else Empty, [])
    {
      hide Line, Probed;
      LineCountsRead(env, ledger, bufferedJobs, pendingWrites, b);
      ProbedQuietly(env.store, capability, ledger, CountRead(ledger), pendingWrites);
      ledger := CountRead(ledger);
      found := Readable(env.source, b);
      var templates := SourceTemplates(env.source, b);
      if !found {
        LineFailsRead(env, ledger, bufferedJobs, pendingWrites, b);
        tracker.Record(b, templates[0]);
        ProbedQuietly(env.store, capability, ledger, FailRead(env.source, ledger, b), pendingWrites);
        ledger := FailRead(env.source, ledger, b);
        return;
      }
      LineDecodes(env, ledger, bufferedJobs, pendingWrites, b);
      if templates != [] { tracker.Record(b, templates[0]); }
      assert tracker.discoveredChildren == tracker.log.children && ChildrenIn(tracker.discoveredChildren, b) == [];
      tracker.RememberChildren(b, ChildrenOf(env.source, b));
      ProbedQuietly(env.store, capability, ledger, Decode(env.source, ledger, b), pendingWrites);
      ledger := Decode(env.source, ledger, b);
    }

    /** The destination's answer to a look-up. */
    method LookUp(b: BlockId) returns (check: CheckAnswer)
      ensures CheckAllowed(env, ledger, b, check)
    {
      var message: string := *;
      match env.store {
        case Predictable(_, _) =>
          check := if b in env.checkErrors then CheckError(env.checkErrors[b])
                   else if b in ledger.blocks then InPlace else Absent;
        case Erratic(truthful, _) =>
          if {
            case !truthful || b in ledger.blocks => check := InPlace;
            case !truthful || b !in ledger.blocks => check := Absent;
            case true => check := CheckError(message);
          }
      }
    }

    /** What the loop does with a block it has read: a block that is to be written is
        buffered, every other block gets its fate. */
    method Handle(b: BlockId)
      requires Tracked() && Steady(Held(b), []) && InLimits() && Readable(env.source, b)
      modifies this`ledger, this`capability, this`pendingWrites, this`bufferedJobs, this`bufferedBytes
      modifies this`inFlightCount, this`inFlightBytes, tracker
      ensures Tracked() && Steady(Empty, []) && InLimits() && Handled(old(ledger), ledger)
      ensures var blind := env.limits.mode == WriteQueue.BlindWrite;
        ledger.metrics.attempted == old(ledger.metrics.attempted) + if blind then 1 else 0
    {
      hide Line, Probed, InFlight, Handled;
      var job := JobFor(env, b);
      if env.limits.mode == WriteQueue.BlindWrite {
        LineWants(env, ledger, bufferedJobs, pendingWrites, b);
        LinePasses(env, ledger, bufferedJobs, pendingWrites, b);
        ProbedQuietly(env.store, capability, ledger, CountAttempt(ledger), pendingWrites);
        ledger := CountAttempt(ledger);
        ghost var before := ledger;
        BufferJob(job);
        HandledByBuffering(old(ledger), before, ledger);
        return;
      }
      var check := LookUp(b);
      match check {
        case InPlace =>
          LineSkips(env, ledger, bufferedJobs, pendingWrites, b);
          ProbedQuietly(env.store, capability, ledger, SkipPresent(ledger, b), pendingWrites);
          ledger := SkipPresent(ledger, b);
          HandledAtOnce(old(ledger), ledger, b, Skipped);
        case Absent =>
          LineWants(env, ledger, bufferedJobs, pendingWrites, b);
          LinePasses(env, ledger, bufferedJobs, pendingWrites, b);
          BufferJob(job);
          HandledByBuffering(old(ledger), old(ledger), ledger);
        case CheckError(m) =>
          LineFailsCheck(env, ledger, bufferedJobs, pendingWrites, b, m);
          tracker.Record(b, Template(CheckDestinationBlock, m));
          ProbedQuietly(env.store, capability, ledger, FailCheck(ledger, b, m), pendingWrites);
          ledger := FailCheck(ledger, b, m);
          HandledAtOnce(old(ledger), ledger, b, CheckFailed(m));
      }
    }

    // ------------------------------------------------------------------ checkpoints

    /** The caller's checkpoint action. It may reorganise the destination store, so nothing
        may be in flight. */
    method CheckpointAction() returns (error: Option<string>)
      requires pendingWrites == [] && bufferedJobs == [] && inFlightCount == 0
      modifies this`checkpointsRun, this`checkpointError
      ensures checkpointsRun == old(checkpointsRun) + 1 && checkpointError == error
    {
      checkpointsRun := checkpointsRun + 1;
      var message: string := *;
      if * { error := Some(message); } else { error := None; }
      checkpointError := error;
    }

    /** After every so many attempted blind writes everything is written out and the
        checkpoint action runs; a failure of it, or a stop request, ends the copy. */
    method RunCheckpointIfDue() returns (halted: bool)
      requires Tracked() && Steady(Empty, []) && InLimits() && Traceable(env, ledger) && env.roots != []
      requires checkpointError == None && Blamed(env, None, ledger)
      modifies this`ledger, this`capability, this`pendingWrites, this`bufferedJobs, this`bufferedBytes
      modifies this`inFlightCount, this`inFlightBytes
      modifies this`stopRequested, this`checkpointsRun, this`checkpointError, tracker
      ensures Tracked() && Steady(Empty, []) && InLimits() && Traceable(env, ledger)
      ensures halted ==> stopRequested || ledger.log.store != multiset{}
      ensures Blamed(env, checkpointError, ledger) && (!halted ==> checkpointError == None)
      ensures !halted ==> OnlySettles(old(ledger), ledger)
      ensures var due := CheckpointDue(env.limits, old(ledger.metrics.attempted));
        !halted ==> checkpointsRun == old(checkpointsRun) + if due then 1 else 0
    {
      hide Line, Probed, InFlight, OnlySettles, Traceable, Blamed, CheckpointDue, Discard, CopyFailureTracker.Valid;
      if !CheckpointDue(env.limits, ledger.metrics.attempted) {
        SettlesNothing(ledger);
        return false;
      }
      FlushBufferedWrites(Empty);
      ghost var between := ledger;
      FlushPendingWrites(Empty);
      SettlesTwice(old(ledger), between, ledger);
      SettlingStaysTraceable(env, old(ledger), ledger);
      SettlingKeepsStore(old(ledger), ledger);
      BlameStays(env, None, old(ledger), ledger);
      var requested := PollInterrupt();
      if requested {
        ghost var dropped := Discard(ledger, bufferedJobs);
        DropsKeepBlame(env, None, ledger, bufferedJobs);
        DiscardFrame(ledger, bufferedJobs);
        StaysTraceable(env, ledger, dropped);
        DiscardBuffered();
        return true;
      }
      var error := CheckpointAction();
      if error.Some? {
        FailTheStore(error.value);
        return true;
      }
      return false;
    }

    method FailTheStore(message: string)
      requires Tracked() && Steady(Empty, []) && InLimits() && Traceable(env, ledger) && env.roots != []
      requires Blamed(env, None, ledger)
      modifies this`ledger, tracker
      ensures Tracked() && Steady(Empty, []) && InLimits() && Traceable(env, ledger) && ledger.log.store != multiset{}
      ensures Blamed(env, Some(message), ledger)
    {
      hide Line, Probed, InFlight, Traceable;
      LineFailsStore(env, ledger, bufferedJobs, pendingWrites, message);
      var template := Template(CompactDestinationStore, message);
      tracker.RecordStoreFailure(env.roots, template);
      ghost var failed := StoreFailures(env.roots, template);
      assert failed[0] in multiset(failed);
      assert forall g :: g in multiset(failed) ==> g in failed;
      StaysTraceable(env, ledger, FailStore(ledger, env.roots, message));
      ProbedQuietly(env.store, capability, ledger, FailStore(ledger, env.roots, message), pendingWrites);
      ledger := FailStore(ledger, env.roots, message);
    }

    // ------------------------------------------------------------------ the loop

    method EnqueueChildren(root: BlockId, childIds: seq<BlockId>)
      modifies this`queue
      ensures queue == old(queue) + WorkQueue.Items(root, childIds)
    {
      for i := 0 to |childIds|
        invariant queue == old(queue) + WorkQueue.Items(root, childIds[..i])
      {
        queue := queue + [WorkQueue.Item(root, childIds[i])];
      }
      assert childIds[..|childIds|] == childIds;
    }

    /** One round of the loop. */
    method CopyNext() returns (halted: bool)
      requires queue != [] && Tracked() && Steady(Empty, []) && InLimits() && Going(env, ledger, Waiting(queue))
      requires Checkpointed(env.limits, checkpointsRun, ledger) && checkpointError == None
      modifies this, tracker
      ensures Tracked() && Steady(Empty, []) && InLimits() && Traceable(env, ledger)
      ensures halted ==> stopRequested || ledger.log.store != multiset{}
      ensures Blamed(env, checkpointError, ledger) && (!halted ==> checkpointError == None)
      ensures !halted ==> Going(env, ledger, Waiting(queue))
      ensures !halted ==> Checkpointed(env.limits, checkpointsRun, ledger)
      ensures !halted ==> var b := old(queue)[0].block;
        && b in Universe(env.source, env.roots) && ledger.visited == old(ledger.visited) + {b}
        && (b in old(ledger.visited) ==> |queue| < |old(queue)|)
    {
      hide Line, Probed, InFlight, OnlySettles, Going, Traceable, Genuine, Checkpointed, Blamed;
      hide CopyFailureTracker.Valid;
      var item := queue[0];
      var rest := queue[1..];
      var b := item.block;
      GoingFacts(env, ledger, queue);
      GoingIsBlameless(env, ledger, Waiting(queue));
      queue := rest;
      var requested := PollInterrupt();
      if requested {
        DropsKeepBlame(env, None, ledger, bufferedJobs);
        DiscardBuffered();
        DiscardFrame(old(ledger), old(bufferedJobs));
        StaysTraceable(env, old(ledger), ledger);
        return true;
      }
      NoteKeepsGoing(env, ledger, old(queue));
      VisitKeepsGoing(env, NoteAt(ledger, item.root, b), rest, b);
      GenuineIsReachable(env, item.root, b);
      var first := Arrive(item);
      ArrivingKeepsCheckpointed(env.limits, checkpointsRun, old(ledger), ledger, item.root, b);
      if !first {
        GoingIsTraceable(env, ledger, Waiting(rest));
        GoingIsBlameless(env, ledger, Waiting(rest));
        assert ledger.visited == old(ledger.visited) + {b};
        return false;
      }
      halted := CopyFirst(item);
    }

    /** A block visited for the first time is read, handled and expanded. */
    method CopyFirst(item: WorkQueue.Item) returns (halted: bool)
      requires Tracked() && Steady(Unread(item.block), []) && InLimits()
      requires Going(env, ledger, Expanding(queue, item.block))
      requires Genuine(env, item.root, item.block) && env.roots != []
      requires Checkpointed(env.limits, checkpointsRun, ledger) && checkpointError == None
      modifies this, tracker
      ensures Tracked() && Steady(Empty, []) && InLimits() && Traceable(env, ledger)
      ensures halted ==> stopRequested || ledger.log.store != multiset{}
      ensures Blamed(env, checkpointError, ledger) && (!halted ==> checkpointError == None)
      ensures !halted ==> Going(env, ledger, Waiting(queue)) && Checkpointed(env.limits, checkpointsRun, ledger)
      ensures !halted ==> ledger.visited == old(ledger.visited)
    {
      hide Line, Probed, InFlight, OnlySettles, Going, Traceable, CheckpointDue, Genuine, Checkpointed, Blamed;
      hide CopyFailureTracker.Valid, Decode, FailRead, Handled;
      var b := item.block;
      var found := ReadAndDecode(b);
      ReadingKeepsGoing(env, old(ledger), ledger, queue, b);
      if !found {
        UnreadableKeepsGoing(env, ledger, queue, b);
        GoingIsTraceable(env, ledger, Waiting(queue));
        GoingIsBlameless(env, ledger, Waiting(queue));
        ReadKeepsCheckpointed(env, checkpointsRun, old(ledger), ledger, b);
        return false;
      }
      ReadKeepsCheckpointed(env, checkpointsRun, old(ledger), ledger, b);
      ghost var decoded := ledger;
      Handle(b);
      HandlingKeepsGoing(env, decoded, ledger, queue, b);
      GoingIsTraceable(env, ledger, Expanding(queue, b));
      GoingIsBlameless(env, ledger, Expanding(queue, b));
      ghost var handled, runBefore := ledger, checkpointsRun;
      halted := RunCheckpointIfDue();
      if !halted {
        SettlingKeepsGoing(env, handled, ledger, Expanding(queue, b));
        StepKeepsCheckpointed(env.limits, runBefore, decoded, handled, ledger);
        EnqueueChildren(item.root, ChildrenOf(env.source, b));
        SpreadKeepsGoing(env, ledger, old(queue), item.root, b);
        GoingIsTraceable(env, ledger, Waiting(queue));
        GoingIsBlameless(env, ledger, Waiting(queue));
      }
    }

    /** The whole copy. When it returns, nothing is buffered or in flight, every visited
        block has exactly one fate, and the destination is accounted for. Unless it was
        halted, it is complete; without failures it has delivered every reachable block; and
        for an orderly store its result is the reference result. */
    method CopyRootedBlocks() returns (report: Report, halted: bool)
      requires ledger == Opened(env) && queue == WorkQueue.RootItems(env.roots)
      requires checkpointsRun == 0 && checkpointError == None
      requires Tracked() && Steady(Empty, []) && InLimits()
      modifies this, tracker
      ensures pendingWrites == [] && bufferedJobs == [] && inFlightCount == 0 && inFlightBytes == 0
      ensures Tracked() && Books(env, ledger, NoParts) && Explains(ledger.log, multiset(tracker.failures))
      ensures report == ReportOf(env, ledger, multiset(tracker.failures))
      ensures report.failedBlockCount == tracker.progressFailedCount
      ensures halted ==> stopRequested || ledger.log.store != multiset{}
      ensures Faithful(env, ledger, NoParts)
      ensures Learned(env.store, capability) && (!Settled(capability) ==> Unasked(ledger))
      ensures !halted ==> Complete(env, ledger)
      ensures !halted && NeverMisled(env) && report.failures == multiset{} ==> Delivered(env, ledger)
      ensures !halted && Orderly(env) ==> Exact(env, ledger) && Foretold(env, report)
      ensures !halted ==> Tells(env, ledger.fate, report)
      ensures !halted ==> Checkpointed(env.limits, checkpointsRun, ledger) && checkpointError == None
      ensures BlameTold(env, checkpointError, report.failures)
    {
      hide Line, Probed, InFlight, OnlySettles, Going, Traceable, Checkpointed, Books, Complete, Exact;
      hide Faithful, Explains, Tells, Foretold, Blamed, BlameTold;
      hide CopyFailureTracker.Valid, FailedSubject, Opened, CheckpointDue;
      NoneCheckpointed(env);
      GoingOpens(env);
      GoingIsTraceable(env, ledger, Waiting(queue));
      GoingIsBlameless(env, ledger, Waiting(queue));
      halted := false;
      while queue != [] && !halted
        invariant Tracked() && Steady(Empty, []) && InLimits() && Traceable(env, ledger)
        invariant halted ==> stopRequested || ledger.log.store != multiset{}
        invariant Blamed(env, checkpointError, ledger) && (!halted ==> checkpointError == None)
        invariant !halted ==> Going(env, ledger, Waiting(queue))
        invariant !halted ==> Checkpointed(env.limits, checkpointsRun, ledger)
        decreases !halted, Universe(env.source, env.roots) - ledger.visited, |queue|
      {
        halted := CopyNext();
      }
      ghost var looped := ledger;
      Drain();
      SettlingKeepsStore(looped, ledger);
      BlameStays(env, checkpointError, looped, ledger);
      SettlingStaysTraceable(env, looped, ledger);
      LineEnds(env, ledger);
      ProbedIsTrue(env.store, capability, ledger, pendingWrites, []);
      tracker.ReportIsExplained();
      tracker.CounterIsOfFailedIds();
      ReportCountsFailedIds(env, ledger, multiset(tracker.failures), tracker.failedIds);
      if !halted {
        SettlingKeepsCheckpointed(env.limits, checkpointsRun, looped, ledger);
        SettlingKeepsGoing(env, looped, ledger, Waiting([]));
        GoingEnds(env, ledger);
        if NeverMisled(env) && multiset(tracker.failures) == multiset{} { FailureFreeIsDelivered(env, ledger); }
      }
      report := ReportOf(env, ledger, multiset(tracker.failures));
      BlameIsTold(env, checkpointError, ledger, multiset(tracker.failures));
      if !halted { ReportIsRight(env, ledger, multiset(tracker.failures)); }
    }

    method Drain()
      requires Tracked() && Steady(Empty, []) && InLimits()
      modifies this`ledger, this`capability, this`pendingWrites, this`bufferedJobs, this`bufferedBytes
      modifies this`inFlightCount, this`inFlightBytes, tracker
      ensures Tracked() && Steady(Empty, []) && OnlySettles(old(ledger), ledger)
      ensures pendingWrites == [] && bufferedJobs == [] && inFlightCount == 0 && inFlightBytes == 0
    {
      hide Line, Probed, InFlight, OnlySettles, CopyFailureTracker.Valid;
      FlushBufferedWrites(Empty);
      ghost var between := ledger;
      FlushPendingWrites(Empty);
      SettlesTwice(old(ledger), between, ledger);
    }
  }

  // ------------------------------------------------------------------ helper lemmas

  lemma SettlesNothing(l: Ledger)
    ensures OnlySettles(l, l)
  {
  }

  /** The blocks whose writes were answered well. */
  function WellDone(done: seq<Completion>): set<BlockId> {
    set k | 0 <= k < |done| && done[k].error.None? :: done[k].block
  }

  lemma WellDoneGrows(done: seq<Completion>, c: Completion)
    ensures WellDone(done + [c]) == WellDone(done) + if c.error.None? then {c.block} else {}
  {
    forall b | b in WellDone(done) ensures b in WellDone(done + [c]) {
      var k :| 0 <= k < |done| && done[k].error.None? && done[k].block == b;
      assert (done + [c])[k] == done[k];
    }
    assert (done + [c])[|done|] == c;
  }

  /** The store answered for `done`: one completion per job, in order, and the books
      and the destination follow the answers. */
  ghost predicate Answered(env: Env, l: Ledger, p: Parts, jobs: seq<Job>, done: seq<Completion>, l': Ledger) {
    && |done| == |jobs| && CopyControl.Aligned(jobs, done) && AsPredicted(env, done)
    && Kept(env, l', AfterAnswers(p, done))
    && l' == l.(blocks := l'.blocks, landed := l'.landed)
  }

  ghost predicate AnsweredUpTo(env: Env, l: Ledger, p: Parts, jobs: seq<Job>, done: seq<Completion>, l': Ledger) {
    && |done| <= |jobs| && CopyControl.Aligned(jobs[..|done|], done) && AsPredicted(env, done)
    && Kept(env, l', AfterAnswers(p, done)) && JobsGenuine(env, jobs)
    && BlocksOf(jobs[|done|..]) <= AfterAnswers(p, done).waiting && l'.landed == l.landed + WellDone(done)
    && l' == l.(blocks := l'.blocks, landed := l'.landed)
  }

  lemma AnsweredNone(env: Env, l: Ledger, p: Parts, jobs: seq<Job>)
    requires Kept(env, l, p) && JobsGenuine(env, jobs) && BlocksOf(jobs) <= p.waiting
    ensures AnsweredUpTo(env, l, p, jobs, [], l)
  {
    hide Kept, JobsGenuine;
    NoAnswers(p);
    assert jobs[0..] == jobs;
  }

  lemma AnsweredWhole(env: Env, l: Ledger, p: Parts, jobs: seq<Job>, done: seq<Completion>, l': Ledger)
    requires AnsweredUpTo(env, l, p, jobs, done, l') && |done| == |jobs|
    ensures Answered(env, l, p, jobs, done, l') && l'.landed == l.landed + WellDone(done)
  {
    hide Kept, JobsGenuine;
    assert jobs[..|jobs|] == jobs;
  }

  lemma AnsweredOneMore(env: Env, l: Ledger, p: Parts, jobs: seq<Job>, done: seq<Completion>, l': Ledger,
                        error: Option<string>)
    requires AnsweredUpTo(env, l, p, jobs, done, l') && |done| < |jobs|
    requires env.store.Predictable? ==> error == WriteError(env, jobs[|done|].block)
    ensures var job := jobs[|done|];
      AnsweredUpTo(env, l, p, jobs, done + [Completion(job.block, |job.bytes|, job.countAsCopied, error)],
                   if error.None? then Land(env, l', job) else l')
  {
    hide Kept, AfterAnswers, AsPredicted, CopyControl.Aligned, WellDone, Land, BlocksOf, WriteError;
    var i, job, q := |done|, jobs[|done|], AfterAnswers(p, done);
    var c := Completion(job.block, |job.bytes|, job.countAsCopied, error);
    assert GenuineJob(env, job);
    NextToPut(jobs, i, q.waiting);
    OneMoreAnswer(p, done, c);
    if error.None? { KeptAfterPut(env, l', q, job); } else { KeptAfterRefusal(env, l', q, job.block); }
    hide JobsGenuine;
    AlignedOneMore(jobs, done, c);
    PredictedOneMore(env, done, c);
    LandedOneMore(env, l, l', job, done, c);
  }

  lemma LandedOneMore(env: Env, l: Ledger, l': Ledger, job: Job, done: seq<Completion>, c: Completion)
    requires l' == l.(blocks := l'.blocks, landed := l'.landed) && l'.landed == l.landed + WellDone(done)
    requires c.block == job.block
    ensures var after := if c.error.None? then Land(env, l', job) else l';
      after == l.(blocks := after.blocks, landed := after.landed) && after.landed == l.landed + WellDone(done + [c])
  {
    WellDoneGrows(done, c);
    hide WellDone, Put;
  }

  lemma AlignedOneMore(jobs: seq<Job>, done: seq<Completion>, c: Completion)
    requires |done| < |jobs| && CopyControl.Aligned(jobs[..|done|], done)
    requires var job := jobs[|done|];
      c.block == job.block && c.bytesLen == |job.bytes| && c.countAsCopied == job.countAsCopied
    ensures CopyControl.Aligned(jobs[..|done| + 1], done + [c])
  {
    assert jobs[..|done| + 1] == jobs[..|done|] + [jobs[|done|]];
  }

  lemma PredictedOneMore(env: Env, done: seq<Completion>, c: Completion)
    requires AsPredicted(env, done) && (Orderly(env) ==> c.error == WriteError(env, c.block))
    ensures AsPredicted(env, done + [c])
  {
  }

  lemma NextToPut(jobs: seq<Job>, i: nat, waiting: multiset<BlockId>)
    requires i < |jobs| && BlocksOf(jobs[i..]) <= waiting
    ensures jobs[i].block in waiting && BlocksOf(jobs[i + 1..]) <= waiting - multiset{jobs[i].block}
  {
    var rest := jobs[i..];
    assert rest[0] == jobs[i] && rest[1..] == jobs[i + 1..];
    assert BlocksOf(rest) == multiset{rest[0].block} + BlocksOf(rest[1..]);
    assert jobs[i].block in BlocksOf(rest);
  }

  /** A batch the store accepted. */
  lemma AnsweredWell(env: Env, l: Ledger, p: Parts, jobs: seq<Job>)
    requires Kept(env, l, p) && JobsGenuine(env, jobs) && BlocksOf(jobs) <= p.waiting
    requires BatchAllowed(env, jobs, BatchOk)
    ensures Answered(env, l, p, jobs, Completions(jobs, None), LandAll(env, l, jobs))
  {
    hide Kept, AfterAnswers;
    LandAllFrame(env, l, jobs);
    KeptAfterBatch(env, l, p, jobs);
  }

  /** A batch that failed as a whole; an orderly store never does that. */
  lemma AnsweredBadly(env: Env, l: Ledger, p: Parts, jobs: seq<Job>, m: string, landed: set<BlockId>)
    requires Kept(env, l, p) && JobsGenuine(env, jobs) && BlocksOf(jobs) <= p.waiting
    requires BatchAllowed(env, jobs, BatchFailed(m, landed))
    ensures Answered(env, l, p, jobs, Completions(jobs, Some(m)), LandSome(env, l, jobs, landed))
  {
    hide AfterAnswers, Books, Faithful;
    if Orderly(env) { OrderlyTakesBatches(env, l, p, jobs, BatchFailed(m, landed)); }
    hide Orderly, Kept;
    LandSomeFrame(env, l, jobs, landed);
    KeptAfterFailedBatch(env, l, p, jobs, m, landed);
  }

  lemma TakeOutFits(env: Env, l: Ledger, buffered: seq<Job>, bufferedBytes: nat, pending: seq<Publication>, count: nat,
                    bytes: nat, hand: Hand, k: nat)
    requires Line(env, l, buffered, pending, hand, [])
    requires InFlight(env.limits, buffered, bufferedBytes, pending, count, bytes)
    requires k < |pending| && pending[k].Executed?
    ensures var done := pending[k].done;
      && count >= |done| && bytes >= DoneBytes(done)
      && InFlight(env.limits, buffered, bufferedBytes, pending[..k] + pending[k + 1..],
                  count - |done|, bytes - DoneBytes(done))
  {
    hide InFlight, Kept;
    TakeOutKeepsInFlight(env, buffered, bufferedBytes, pending, count, bytes, k);
  }

  /** What handling one block may do to the ledger, apart from the attempt count. */
  ghost predicate Handled(l: Ledger, l': Ledger) {
    && l'.visited == l.visited && l'.log.noted == l.log.noted && l'.log.store == l.log.store
    && (NothingLost(l) ==> NothingLost(l'))
  }

  lemma HandledByBuffering(l: Ledger, between: Ledger, l': Ledger)
    requires between == l || between == CountAttempt(l)
    requires OnlySettles(between, l')
    ensures Handled(l, l') && l'.metrics.attempted == between.metrics.attempted
  {
  }

  lemma HandledAtOnce(l: Ledger, l': Ledger, b: BlockId, f: Fate)
    requires l'.visited == l.visited && l'.log.noted == l.log.noted && l'.log.store == l.log.store
    requires l'.fate == l.fate[b := f] && !f.Abandoned? && !f.Discarded?
    ensures Handled(l, l')
  {
  }

  lemma ReportIsRight(env: Env, l: Ledger, failures: multiset<CopyFailure>)
    requires Complete(env, l) && Books(env, l, NoParts) && Explains(l.log, failures)
    requires Orderly(env) ==> Exact(env, l)
    ensures Tells(env, l.fate, ReportOf(env, l, failures))
    ensures Orderly(env) ==> Foretold(env, ReportOf(env, l, failures))
  {
    hide Complete, Books, Explains, Orderly, Exact, Tells, Foretold, ReportOf;
    ReportTells(env, l, failures);
    if Orderly(env) {
      OrderlyIsPredictable(env);
      ReportIsForetold(env, l, failures);
    }
  }

  predicate CheckpointDue(l: WriteQueue.Limits, attempted: nat) {
    var every := WriteQueue.CheckpointEvery(l);
    every > 0 && attempted > 0 && attempted % every == 0
  }

  /** A blind copy with an interval has run a checkpoint each time so many writes had been
      attempted; any other copy has run none. */
  ghost predicate Checkpointed(l: WriteQueue.Limits, run: nat, ledger: Ledger) {
    if l.mode == WriteQueue.BlindWrite && l.interval.Some? && l.interval.value > 0
    then run == ledger.metrics.attempted / l.interval.value
    else run == 0
  }

  lemma NoneCheckpointed(env: Env)
    ensures Checkpointed(env.limits, 0, Opened(env))
  {
  }

  lemma ArrivingKeepsCheckpointed(l: WriteQueue.Limits, run: nat, a: Ledger, b: Ledger, root: BlockId, block: BlockId)
    requires Checkpointed(l, run, a) && (b == NoteAt(a, root, block) || b == Visit(NoteAt(a, root, block), block))
    ensures Checkpointed(l, run, b)
  {
  }

  lemma ReadKeepsCheckpointed(env: Env, run: nat, a: Ledger, b: Ledger, block: BlockId)
    requires Checkpointed(env.limits, run, a)
    requires b == if Readable(env.source, block) then Decode(env.source, CountRead(a), block)
      else FailRead(env.source, CountRead(a), block)
    ensures Checkpointed(env.limits, run, b) && b.visited == a.visited
  {
  }

  lemma SettlingKeepsCheckpointed(l: WriteQueue.Limits, run: nat, a: Ledger, b: Ledger)
    requires Checkpointed(l, run, a) && OnlySettles(a, b)
    ensures Checkpointed(l, run, b)
  {
  }

  /** What is recorded about the store as a whole: each requested root once if the
      checkpoint failed, and nothing otherwise. */
  ghost predicate Blamed(env: Env, error: Option<string>, l: Ledger) {
    l.log.store == match error
      case None => multiset{}
      case Some(m) => multiset(StoreFailures(env.roots, Template(CompactDestinationStore, m)))
  }

  /** The same of the reported failures. */
  ghost predicate BlameTold(env: Env, error: Option<string>, failures: multiset<CopyFailure>) {
    forall f: CopyFailure :: f.subject == DestinationStore ==>
      failures[f] == if CheckpointFailure(f, error) then multiset(env.roots)[f.root] else 0
  }

  predicate CheckpointFailure(f: CopyFailure, error: Option<string>) {
    error.Some? && f.template == Template(CompactDestinationStore, error.value)
  }

  lemma BlameStays(env: Env, error: Option<string>, l: Ledger, l': Ledger)
    requires Blamed(env, error, l) && l'.log.store == l.log.store
    ensures Blamed(env, error, l')
  {
  }

  lemma DropsKeepBlame(env: Env, error: Option<string>, l: Ledger, jobs: seq<Job>)
    requires Blamed(env, error, l)
    ensures Blamed(env, error, Discard(l, jobs))
  {
    DiscardFrame(l, jobs);
  }

  lemma GoingIsBlameless(env: Env, l: Ledger, f: Front)
    requires Going(env, l, f)
    ensures Blamed(env, None, l)
  {
  }

  lemma BlameIsTold(env: Env, error: Option<string>, l: Ledger, failures: multiset<CopyFailure>)
    requires Blamed(env, error, l) && Explains(l.log, failures)
    ensures BlameTold(env, error, failures)
  {
    forall f: CopyFailure | f.subject == DestinationStore
      ensures failures[f] == if CheckpointFailure(f, error) then multiset(env.roots)[f.root] else 0
    {
      assert failures[f] == ExpectedCount(l.log, f);
      if error.Some? { FailureOfEachRoot(env.roots, Template(CompactDestinationStore, error.value), f); }
    }
  }

  lemma SettlingKeepsStore(a: Ledger, b: Ledger)
    requires OnlySettles(a, b)
    ensures b.log.store == a.log.store
  {
  }

  lemma StepKeepsCheckpointed(l: WriteQueue.Limits, run: nat, a: Ledger, handled: Ledger, b: Ledger)
    requires Checkpointed(l, run, a) && OnlySettles(handled, b)
    requires handled.metrics.attempted == a.metrics.attempted + if l.mode == WriteQueue.BlindWrite then 1 else 0
    ensures Checkpointed(l, run + if CheckpointDue(l, handled.metrics.attempted) then 1 else 0, b)
    ensures b.visited == handled.visited
  {
    if WriteQueue.CheckpointEvery(l) > 0 { NextQuotient(a.metrics.attempted, WriteQueue.CheckpointEvery(l)); }
  }

  lemma GoingFacts(env: Env, l: Ledger, queue: seq<WorkQueue.Item>)
    requires Going(env, l, Waiting(queue)) && queue != []
    ensures Genuine(env, queue[0].root, queue[0].block) && env.roots != []
    ensures queue[0].block in Universe(env.source, env.roots)
    ensures Traceable(env, l)
  {
    hide OnTrack, Covers, NothingLost;
    NextIsGenuine(env, l, queue);
    GoingIsTraceable(env, l, Waiting(queue));
  }

  lemma ReadingKeepsGoing(env: Env, l: Ledger, l': Ledger, queue: seq<WorkQueue.Item>, b: BlockId)
    requires Going(env, l, Expanding(queue, b))
    requires l' == if Readable(env.source, b) then Decode(env.source, CountRead(l), b)
      else FailRead(env.source, CountRead(l), b)
    ensures Going(env, l', Expanding(queue, b))
  {
    hide OnTrack, Covers;
    WorkKeepsGoing(env, l, l', Expanding(queue, b));
  }

  lemma HandlingKeepsGoing(env: Env, l: Ledger, l': Ledger, queue: seq<WorkQueue.Item>, b: BlockId)
    requires Going(env, l, Expanding(queue, b)) && Handled(l, l')
    ensures Going(env, l', Expanding(queue, b)) && l'.visited == l.visited
  {
    hide OnTrack, Covers;
    WorkKeepsGoing(env, l, l', Expanding(queue, b));
  }

  lemma GoingEnds(env: Env, l: Ledger)
    requires Going(env, l, Waiting([])) && Books(env, l, NoParts) && Faithful(env, l, NoParts)
    ensures Complete(env, l) && (Orderly(env) ==> Exact(env, l))
  {
    hide OnTrack, Covers, Books, Faithful, NothingLost, Complete, Exact;
    assert Waiting([]) == NoFront;
    EndIsComplete(env, l);
    if Orderly(env) { EndIsExact(env, l); }
  }

  lemma GenuineIsReachable(env: Env, root: BlockId, b: BlockId)
    requires Genuine(env, root, b)
    ensures b in ReachableSet(env.source, env.roots)
  {
    hide Reach;
    assert ReachFromAny(SourceGraph(env.source), env.roots, b);
  }

  /** Confluence of the two implementations: an exact single-worker copy and any
      uninterrupted multi-worker run, with whatever limits and checkpoint interval, leave
      the same destination and the same report. */
  lemma AgreesWithEverySchedule(env1: Env, l: Ledger, failures: multiset<CopyFailure>, env2: Env, n: nat,
                                run: seq<Event>, runFailures: multiset<CopyFailure>)
    requires SameTask(env1, env2) && WellConfigured(env2) && Orderly(env1) && Exact(env1, l)
    requires Explains(l.log, failures)
    requires n >= 1 && IsRun(env2, Initial(env2, n), run)
    requires Final(RunEnd(env2, Initial(env2, n), run)) && !RunEnd(env2, Initial(env2, n), run).stop
    requires Explains(RunEnd(env2, Initial(env2, n), run).ledger.log, runFailures)
    ensures var l2 := RunEnd(env2, Initial(env2, n), run).ledger;
      l.blocks == l2.blocks && l.fate == l2.fate && ReportOf(env1, l, failures) == ReportOf(env2, l2, runFailures)
  {
    hide Final, Initial, Explains, Exact;
    SameTaskSameOrder(env1, env2);
    UninterruptedRunIsExact(env2, n, run);
    ExactIsUnique(env1, env2, l, RunEnd(env2, Initial(env2, n), run).ledger, failures, runFailures);
  }
}
