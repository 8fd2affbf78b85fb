/** The invariant of the single-worker copy as a predicate on values, and one lemma per
    step of the copy saying that the step keeps it. */
module SingleLine {
  import opened BlockGraph
  import opened Tallies
  import opened FailureTracker
  import opened Ledger
  import opened Destination
  import opened Frontier
  import opened Outcome
  import opened CopyAccounts
  import opened WriteLine
  import CopyControl
  import CopyProtocol
  import WorkQueue
  import WriteQueue

  /** The books are straight for what is in the buffer, in flight, in hand and being recorded. */
  ghost predicate Line(env: Env, l: Ledger, buffered: seq<Job>, pending: seq<Publication>, hand: Hand,
                       recording: seq<Completion>) {
    Kept(env, l, LineParts(buffered, pending, hand, recording)) && LineHonest(env, buffered, pending)
  }

  lemma LineOpens(env: Env)
    ensures Line(env, Opened(env), [], [], Empty, [])
  {
    NothingOnLine(Empty);
    OpenedBooks(env);
    OpenedFaithful(env);
  }

  /** At the end of a copy nothing is outstanding. */
  lemma LineEnds(env: Env, l: Ledger)
    requires Line(env, l, [], [], Empty, [])
    ensures Books(env, l, NoParts) && Faithful(env, l, NoParts)
  {
    NothingOnLine(Empty);
  }

  // ------------------------------------------------------------- the traversal loop

  lemma LineNotes(env: Env, l: Ledger, buffered: seq<Job>, pending: seq<Publication>, root: BlockId, b: BlockId)
    requires Line(env, l, buffered, pending, Empty, [])
    ensures Line(env, NoteAt(l, root, b), buffered, pending, Empty, [])
  {
    hide Books, Faithful, LineParts;
    var p := LineParts(buffered, pending, Empty, []);
    NoteKeepsBooks(env, l, p, root, b);
    QuietKeepsFaithful(env, l, p, NoteAt(l, root, b), p);
  }

  lemma UnreadParts(buffered: seq<Job>, pending: seq<Publication>, b: BlockId)
    ensures var p := LineParts(buffered, pending, Empty, []);
      LineParts(buffered, pending, Unread(b), []) == p.(reading := p.reading + multiset{b}, unread := p.unread + 1)
  {
  }

  lemma LineVisits(env: Env, l: Ledger, buffered: seq<Job>, pending: seq<Publication>, b: BlockId)
    requires Line(env, l, buffered, pending, Empty, []) && b !in l.visited && b in ReachableSet(env.source, env.roots)
    ensures Line(env, Visit(l, b), buffered, pending, Unread(b), [])
  {
    hide Books, Faithful, LineParts, LineHonest;
    var p, p' := LineParts(buffered, pending, Empty, []), LineParts(buffered, pending, Unread(b), []);
    UnreadParts(buffered, pending, b);
    VisitKeepsBooks(env, l, p, b);
    VisitKeepsFaithful(env, l, p, p', b);
  }

  lemma LineCountsRead(env: Env, l: Ledger, buffered: seq<Job>, pending: seq<Publication>, b: BlockId)
    requires Line(env, l, buffered, pending, Unread(b), [])
    ensures Line(env, CountRead(l), buffered, pending, Undecoded(b), [])
  {
    hide Books, Faithful, LineHonest;
    var p, p' := LineParts(buffered, pending, Unread(b), []), LineParts(buffered, pending, Undecoded(b), []);
    CountReadKeepsBooks(env, l, p);
    assert p' == p.(unread := p.unread - 1);
    QuietKeepsFaithful(env, l, p, CountRead(l), p');
  }

  lemma LineFailsRead(env: Env, l: Ledger, buffered: seq<Job>, pending: seq<Publication>, b: BlockId)
    requires Line(env, l, buffered, pending, Undecoded(b), []) && !Readable(env.source, b)
    ensures Line(env, FailRead(env.source, l, b), buffered, pending, Empty, [])
  {
    hide Books, Faithful, LineHonest;
    var p, p' := LineParts(buffered, pending, Undecoded(b), []), LineParts(buffered, pending, Empty, []);
    FailReadKeepsBooks(env, l, p, b);
    assert p' == p.(reading := p.reading - multiset{b});
    HandIsOpen(env, l, p, b);
    FinishKeepsFaithful(env, l, p, FailRead(env.source, l, b), p', b, ReadFailed);
  }

  lemma HandIsOpen(env: Env, l: Ledger, p: Parts, b: BlockId)
    requires Books(env, l, p) && b in p.reading + p.held
    ensures b !in l.fate
  {
    hide Partitioned;
    PartIsOpen(env, l, p, b);
  }

  lemma LineDecodes(env: Env, l: Ledger, buffered: seq<Job>, pending: seq<Publication>, b: BlockId)
    requires Line(env, l, buffered, pending, Undecoded(b), []) && Readable(env.source, b)
    ensures Line(env, Decode(env.source, l, b), buffered, pending, Held(b), []) && b !in l.log.children
  {
    hide Books, Faithful, LineHonest;
    var p, p' := LineParts(buffered, pending, Undecoded(b), []), LineParts(buffered, pending, Held(b), []);
    DecodeKeepsBooks(env, l, p, b);
    assert p' == p.(reading := p.reading - multiset{b}, held := p.held + multiset{b});
    QuietKeepsFaithful(env, l, p, Decode(env.source, l, b), p');
  }

  /** What a look-up finds of the block in hand is what was there at the beginning. */
  lemma HeldSeesInitial(env: Env, l: Ledger, buffered: seq<Job>, pending: seq<Publication>, b: BlockId)
    requires Line(env, l, buffered, pending, Held(b), [])
    ensures b in l.blocks <==> b in env.initial
  {
    hide Books, Faithful;
    UnwrittenIsInitial(env, l, LineParts(buffered, pending, Held(b), []), b);
  }

  lemma LineFinishes(env: Env, l: Ledger, buffered: seq<Job>, pending: seq<Publication>, b: BlockId, l': Ledger,
                     f: Fate)
    requires Line(env, l, buffered, pending, Held(b), [])
    requires l'.fate == l.fate[b := f] && l'.landed == l.landed && l'.blocks == l.blocks && l'.visited == l.visited
    requires f.Skipped? || f.CheckFailed?
    requires env.store.Predictable? ==> f == ExpectedFate(env, b)
    requires f.Skipped? && LooksUpTruly(env.store) ==> b in env.initial
    requires var p := LineParts(buffered, pending, Held(b), []); Books(env, l', p.(held := p.held - multiset{b}))
    ensures Line(env, l', buffered, pending, Empty, [])
  {
    hide Books, Faithful, LineHonest;
    var p, p' := LineParts(buffered, pending, Held(b), []), LineParts(buffered, pending, Empty, []);
    assert p' == p.(held := p.held - multiset{b});
    HandIsOpen(env, l, p, b);
    FinishKeepsFaithful(env, l, p, l', p', b, f);
  }

  lemma LineSkips(env: Env, l: Ledger, buffered: seq<Job>, pending: seq<Publication>, b: BlockId)
    requires Line(env, l, buffered, pending, Held(b), []) && env.limits.mode == WriteQueue.ReadBeforeWrite
    requires Readable(env.source, b) && CopyProtocol.CheckAllowed(env, l, b, CopyProtocol.InPlace)
    ensures Line(env, SkipPresent(l, b), buffered, pending, Empty, [])
  {
    HeldSeesInitial(env, l, buffered, pending, b);
    SkipFacts(env, l, buffered, pending, b);
    hide Line, Books;
    LineFinishes(env, l, buffered, pending, b, SkipPresent(l, b), Skipped);
  }

  lemma SkipFacts(env: Env, l: Ledger, buffered: seq<Job>, pending: seq<Publication>, b: BlockId)
    requires Line(env, l, buffered, pending, Held(b), []) && env.limits.mode == WriteQueue.ReadBeforeWrite
    ensures var p := LineParts(buffered, pending, Held(b), []);
      Books(env, SkipPresent(l, b), p.(held := p.held - multiset{b}))
  {
    hide Books, Faithful;
    SkipKeepsBooks(env, l, LineParts(buffered, pending, Held(b), []), b);
  }

  lemma LineFailsCheck(env: Env, l: Ledger, buffered: seq<Job>, pending: seq<Publication>, b: BlockId, m: string)
    requires Line(env, l, buffered, pending, Held(b), []) && env.limits.mode == WriteQueue.ReadBeforeWrite
    requires Readable(env.source, b) && CopyProtocol.CheckAllowed(env, l, b, CopyProtocol.CheckError(m))
    ensures Line(env, FailCheck(l, b, m), buffered, pending, Empty, [])
  {
    hide Books, Faithful;
    FailCheckKeepsBooks(env, l, LineParts(buffered, pending, Held(b), []), b, m);
    LineFinishes(env, l, buffered, pending, b, FailCheck(l, b, m), CheckFailed(m));
  }

  /** A block that is written blindly or was not found wants to be written. */
  lemma LineWants(env: Env, l: Ledger, buffered: seq<Job>, pending: seq<Publication>, b: BlockId)
    requires Line(env, l, buffered, pending, Held(b), []) && Readable(env.source, b)
    requires env.limits.mode == WriteQueue.ReadBeforeWrite ==> CopyProtocol.CheckAllowed(env, l, b, CopyProtocol.Absent)
    ensures env.store.Predictable? ==> WantsWrite(env, b)
  {
    hide Line;
    HeldSeesInitial(env, l, buffered, pending, b);
  }

  function Attempted(env: Env, l: Ledger): Ledger {
    if env.limits.mode == WriteQueue.BlindWrite then CountAttempt(l) else l
  }

  /** The job in hand is on its way to the buffer; a blind write is counted. */
  lemma LinePasses(env: Env, l: Ledger, buffered: seq<Job>, pending: seq<Publication>, b: BlockId)
    requires Line(env, l, buffered, pending, Held(b), []) && (env.store.Predictable? ==> WantsWrite(env, b))
    ensures Line(env, Attempted(env, l), buffered, pending, Passing(b), [])
  {
    hide Books, Faithful, LineHonest;
    var p, p' := LineParts(buffered, pending, Held(b), []), LineParts(buffered, pending, Passing(b), []);
    PassParts(buffered, pending, b);
    if env.limits.mode == WriteQueue.BlindWrite {
      AcceptKeepsBooks(env, l, p, b, 1);
      CountAttemptKeepsBooks(env, l, p'.(uncounted := 1));
    } else {
      AcceptKeepsBooks(env, l, p, b, 0);
    }
    AcceptKeepsFaithful(env, l, p, p', b);
    QuietKeepsFaithful(env, l, p', Attempted(env, l), p');
  }

  lemma LinePushes(env: Env, l: Ledger, buffered: seq<Job>, pending: seq<Publication>, job: Job)
    requires Line(env, l, buffered, pending, Passing(job.block), []) && GenuineJob(env, job)
    ensures Line(env, l, buffered + [job], pending, Empty, [])
  {
    hide Kept;
    PushParts(buffered, pending, job);
  }

  lemma LineFailsStore(env: Env, l: Ledger, buffered: seq<Job>, pending: seq<Publication>, m: string)
    requires Line(env, l, buffered, pending, Empty, [])
    ensures Line(env, FailStore(l, env.roots, m), buffered, pending, Empty, [])
  {
    hide Books, Faithful, LineParts;
    var p := LineParts(buffered, pending, Empty, []);
    FailStoreKeepsBooks(env, l, p, m);
    QuietKeepsFaithful(env, l, p, FailStore(l, env.roots, m), p);
  }

  // --------------------------------------------------------------- the write line

  lemma LineFlushes(env: Env, l: Ledger, buffered: seq<Job>, pending: seq<Publication>, hand: Hand)
    requires Line(env, l, buffered, pending, hand, []) && buffered != []
    ensures Line(env, l, [], pending + [Submitted(buffered)], hand, [])
  {
    hide Kept, LineParts;
    FlushParts(buffered, pending, hand);
    HonestSubmission(env, buffered, pending);
  }

  lemma HonestSubmission(env: Env, buffered: seq<Job>, pending: seq<Publication>)
    requires LineHonest(env, buffered, pending) && buffered != []
    ensures LineHonest(env, [], pending + [Submitted(buffered)])
  {
    hide AsPredicted, CopyControl.Aligned;
  }

  lemma LineDiscards(env: Env, l: Ledger, buffered: seq<Job>, pending: seq<Publication>)
    requires Line(env, l, buffered, pending, Empty, [])
    ensures Line(env, Discard(l, buffered), [], pending, Empty, [])
  {
    hide Books, Faithful;
    var p := LineParts(buffered, pending, Empty, []);
    DiscardParts(buffered, pending);
    DiscardKeepsBooks(env, l, p, buffered);
    DiscardKeepsFaithful(env, l, p, buffered);
  }

  /** Before a publication is executed its jobs wait, and the line knows them. */
  lemma LineOffers(env: Env, l: Ledger, buffered: seq<Job>, pending: seq<Publication>, hand: Hand, k: nat)
    requires Line(env, l, buffered, pending, hand, []) && k < |pending| && pending[k].Submitted?
    ensures var p, jobs := LineParts(buffered, pending, hand, []), pending[k].jobs;
      Kept(env, l, p) && JobsGenuine(env, jobs) && BlocksOf(jobs) <= p.waiting && LineHonest(env, buffered, pending)
  {
    hide Kept;
    assert PubHonest(env, pending[k]);
    GatherHolds(pending, k, UnputIn);
  }

  lemma LineExecutes(env: Env, l: Ledger, l': Ledger, buffered: seq<Job>, pending: seq<Publication>, hand: Hand, k: nat,
                     done: seq<Completion>)
    requires LineHonest(env, buffered, pending) && k < |pending| && pending[k].Submitted?
    requires Kept(env, l', AfterAnswers(LineParts(buffered, pending, hand, []), done))
    requires |done| == |pending[k].jobs| && CopyControl.Aligned(pending[k].jobs, done) && AsPredicted(env, done)
    ensures Line(env, l', buffered, pending[k := Executed(pending[k].jobs, done)], hand, [])
  {
    hide Kept, AsPredicted, LineParts, CopyControl.Aligned;
    AlignedBlocks(pending[k].jobs, done);
    ExecuteParts(buffered, pending, hand, k, done);
    assert PubHonest(env, pending[k]);
  }

  lemma LineTakesOut(env: Env, l: Ledger, buffered: seq<Job>, pending: seq<Publication>, hand: Hand, k: nat)
    requires Line(env, l, buffered, pending, hand, []) && k < |pending| && pending[k].Executed?
    ensures Line(env, l, buffered, pending[..k] + pending[k + 1..], hand, pending[k].done)
    ensures DoneHonest(env, pending[k].done) && pending[k].done != []
  {
    hide Kept, LineParts;
    TakeOutParts(buffered, pending, hand, k);
    var rest := pending[..k] + pending[k + 1..];
    forall j | 0 <= j < |rest| ensures PubHonest(env, rest[j]) {
      assert rest[j] == if j < k then pending[j] else pending[j + 1];
    }
    assert PubHonest(env, pending[k]);
    ExecutedIsHonest(env, pending[k]);
  }

  ghost predicate DoneHonest(env: Env, done: seq<Completion>) {
    forall k :: 0 <= k < |done| ==> OneHonest(env, done[k])
  }

  ghost predicate OneHonest(env: Env, c: Completion) {
    && (c.countAsCopied <==> env.limits.mode == WriteQueue.ReadBeforeWrite)
    && (Orderly(env) ==> c.error == WriteError(env, c.block))
  }

  lemma ExecutedIsHonest(env: Env, pub: Publication)
    requires PubHonest(env, pub) && pub.Executed?
    ensures DoneHonest(env, pub.done)
  {
    forall k | 0 <= k < |pub.done| ensures OneHonest(env, pub.done[k]) {
      assert GenuineJob(env, pub.jobs[k]);
    }
  }

  lemma LineRecords(env: Env, l: Ledger, buffered: seq<Job>, pending: seq<Publication>, hand: Hand,
                    recording: seq<Completion>)
    requires Line(env, l, buffered, pending, hand, recording) && recording != [] && OneHonest(env, recording[0])
    ensures Line(env, Settle(l, recording[0]), buffered, pending, hand, recording[1..])
    ensures OnlySettles(l, Settle(l, recording[0]))
  {
    hide Kept, LineParts, OnlySettles, LineHonest;
    RecordParts(buffered, pending, hand, recording);
    KeptAfterSettle(env, l, LineParts(buffered, pending, hand, recording), recording[0]);
  }

  // ------------------------------------------------------- what is known of batches

  lemma ProbedOpens(env: Env)
    ensures Probed(env.store, WriteQueue.Unknown, Opened(env), [], [])
  {
  }

  lemma ProbedIsTrue(store: StoreModel, c: WriteQueue.Capability, l: Ledger, pending: seq<Publication>,
                     recording: seq<Completion>)
    requires Probed(store, c, l, pending, recording)
    ensures Learned(store, c) && (!Settled(c) ==> Unasked(l))
  {
  }

  lemma ProbedOnceSettled(store: StoreModel, c: WriteQueue.Capability, l: Ledger, pending: seq<Publication>,
                          recording: seq<Completion>)
    requires Learned(store, c) && Settled(c)
    ensures Probed(store, c, l, pending, recording)
  {
  }

  /** Where there is an answer, the question has been settled. */
  lemma ProbedBeforeAnswers(store: StoreModel, c: WriteQueue.Capability, l: Ledger, pending: seq<Publication>,
                            recording: seq<Completion>, k: nat)
    requires Probed(store, c, l, pending, recording) && k < |pending| && pending[k].Executed?
    ensures Learned(store, c) && Settled(c)
  {
  }

  lemma ProbedBeforeRecording(store: StoreModel, c: WriteQueue.Capability, l: Ledger, pending: seq<Publication>,
                              recording: seq<Completion>)
    requires Probed(store, c, l, pending, recording) && recording != []
    ensures Learned(store, c) && Settled(c)
  {
  }

  /** Steps that neither write nor record an answer. */
  lemma ProbedQuietly(store: StoreModel, c: WriteQueue.Capability, l: Ledger, l': Ledger, pending: seq<Publication>)
    requires Probed(store, c, l, pending, []) && l'.landed == l.landed
    requires forall b :: b in l'.fate ==>
      (b in l.fate && l'.fate[b] == l.fate[b]) || (!WentWell(l'.fate[b]) && !l'.fate[b].WriteFailed?)
    ensures Probed(store, c, l', pending, [])
  {
  }

  lemma ProbedStarts(store: StoreModel, l: Ledger, pending: seq<Publication>)
    requires Probed(store, WriteQueue.Unknown, l, pending, [])
    ensures Probed(store, WriteQueue.Probing, l, pending, [])
  {
  }

  lemma ProbedSubmits(store: StoreModel, c: WriteQueue.Capability, l: Ledger, pending: seq<Publication>, jobs: seq<Job>)
    requires Probed(store, c, l, pending, [])
    ensures Probed(store, c, l, pending + [Submitted(jobs)], [])
  {
  }

  lemma SubmittedIsNotEmpty(env: Env, buffered: seq<Job>, pending: seq<Publication>, k: nat)
    requires LineHonest(env, buffered, pending) && k < |pending|
    ensures pending[k].jobs != []
  {
    assert PubHonest(env, pending[k]);
  }

  // -------------------------------------------------------------------- the limits

  function DoneBytes(done: seq<Completion>): nat {
    if done == [] then 0 else done[0].bytesLen + DoneBytes(done[1..])
  }

  ghost predicate InFlight(l: WriteQueue.Limits, buffered: seq<Job>, bufferedBytes: nat, pending: seq<Publication>,
                           count: nat, bytes: nat) {
    l.count >= 1 && Capacity(l, pending, count, bytes) && BufferFits(l, buffered, bufferedBytes)
  }

  lemma InFlightOpens(l: WriteQueue.Limits)
    requires l.count >= 1
    ensures InFlight(l, [], 0, [], 0, 0)
  {
  }

  lemma ExecuteKeepsInFlight(l: WriteQueue.Limits, buffered: seq<Job>, bufferedBytes: nat, pending: seq<Publication>,
                             count: nat, bytes: nat, k: nat, done: seq<Completion>)
    requires InFlight(l, buffered, bufferedBytes, pending, count, bytes) && k < |pending|
    ensures InFlight(l, buffered, bufferedBytes, pending[k := Executed(pending[k].jobs, done)], count, bytes)
  {
    TallyUpdate(pending, k, Executed(pending[k].jobs, done), JobCount);
    TallyUpdate(pending, k, Executed(pending[k].jobs, done), ByteCount);
  }

  lemma {:induction false} DoneBytesMatch(jobs: seq<Job>, done: seq<Completion>)
    requires |done| == |jobs| && CopyControl.Aligned(jobs, done)
    ensures DoneBytes(done) == WriteQueue.TotalBytes(jobs)
  {
    if jobs != [] {
      forall k | 0 <= k < |done[1..]|
        ensures done[1..][k].block == jobs[1..][k].block && done[1..][k].bytesLen == |jobs[1..][k].bytes|
          && done[1..][k].countAsCopied == jobs[1..][k].countAsCopied
      {
        assert done[1..][k] == done[k + 1] && jobs[1..][k] == jobs[k + 1];
      }
      DoneBytesMatch(jobs[1..], done[1..]);
    }
  }

  /** Taking a finished publication out leaves the counters too high by what it holds. */
  lemma TakeOutKeepsInFlight(env: Env, buffered: seq<Job>, bufferedBytes: nat, pending: seq<Publication>, count: nat,
                             bytes: nat, k: nat)
    requires InFlight(env.limits, buffered, bufferedBytes, pending, count, bytes)
    requires k < |pending| && pending[k].Executed? && PubHonest(env, pending[k])
    ensures var done := pending[k].done;
      && count >= |done| && bytes >= DoneBytes(done)
      && InFlight(env.limits, buffered, bufferedBytes, pending[..k] + pending[k + 1..],
                  count - |done|, bytes - DoneBytes(done))
  {
    var jobs, done, rest := pending[k].jobs, pending[k].done, pending[..k] + pending[k + 1..];
    TallyWithout(pending, k, JobCount);
    TallyWithout(pending, k, ByteCount);
    DoneBytesMatch(jobs, done);
    if Tally(rest, JobCount) == 0 { NoJobsNoBytes(rest); }
  }

  lemma {:induction false} NoJobsNoBytes(pending: seq<Publication>)
    requires Tally(pending, JobCount) == 0
    ensures Tally(pending, ByteCount) == 0
  {
    if pending != [] { NoJobsNoBytes(pending[1..]); }
  }

  /** The capacity wait makes room for the buffered jobs. */
  lemma SubmitKeepsInFlight(l: WriteQueue.Limits, buffered: seq<Job>, bufferedBytes: nat, pending: seq<Publication>,
                            count: nat, bytes: nat)
    requires InFlight(l, buffered, bufferedBytes, pending, count, bytes) && count + |buffered| <= l.count
    requires count > 0 && l.bytes > 0 ==> bytes + bufferedBytes <= l.bytes
    ensures InFlight(l, [], 0, pending + [Submitted(buffered)], count + |buffered|, bytes + bufferedBytes)
  {
    TallyConcat(pending, [Submitted(buffered)], JobCount);
    TallyConcat(pending, [Submitted(buffered)], ByteCount);
    TallyOne(Submitted(buffered), JobCount);
    TallyOne(Submitted(buffered), ByteCount);
    if count == 0 { NoJobsNoBytes(pending); }
    if |buffered| == 0 { assert buffered == []; }
  }

  /** A wait always has something to wait for. */
  lemma SomethingPending(l: WriteQueue.Limits, buffered: seq<Job>, bufferedBytes: nat, pending: seq<Publication>,
                         count: nat, bytes: nat)
    requires InFlight(l, buffered, bufferedBytes, pending, count, bytes)
    ensures count > 0 ==> pending != []
    ensures pending == [] ==> count == 0 && bytes == 0
    ensures |buffered| <= l.count && l.count >= 1 && bufferedBytes == WriteQueue.TotalBytes(buffered)
  {
  }

  lemma PushKeepsInFlight(l: WriteQueue.Limits, buffered: seq<Job>, bufferedBytes: nat, pending: seq<Publication>,
                          count: nat, bytes: nat, job: Job)
    requires InFlight(l, buffered, bufferedBytes, pending, count, bytes) && |buffered| < l.count
    requires buffered != [] && l.bytes > 0 ==> bufferedBytes + |job.bytes| <= l.bytes
    ensures InFlight(l, buffered + [job], bufferedBytes + |job.bytes|, pending, count, bytes)
  {
    TallyConcat(buffered, [job], WriteQueue.JobBytes);
    TallyOne(job, WriteQueue.JobBytes);
  }

  lemma DropKeepsInFlight(l: WriteQueue.Limits, buffered: seq<Job>, bufferedBytes: nat, pending: seq<Publication>,
                          count: nat, bytes: nat)
    requires InFlight(l, buffered, bufferedBytes, pending, count, bytes)
    ensures InFlight(l, [], 0, pending, count, bytes)
  {
  }

  // ------------------------------------------------------------------ the traversal

  /** The copy is on track and nothing has been given up or missed. */
  ghost predicate Going(env: Env, l: Ledger, f: Front) {
    OnTrack(env, l, f) && Covers(env, l, f) && NothingLost(l) && l.log.store == multiset{}
  }

  function Waiting(queue: seq<WorkQueue.Item>): Front { Front(set item | item in queue, {}, {}) }

  function Expanding(queue: seq<WorkQueue.Item>, b: BlockId): Front { Front(set item | item in queue, {}, {b}) }

  lemma GoingOpens(env: Env)
    ensures Going(env, Opened(env), Waiting(WorkQueue.RootItems(env.roots)))
  {
    OpenedFront(env);
  }

  /** The first queued pair is genuine, so its root was requested and its block is known. */
  lemma NextIsGenuine(env: Env, l: Ledger, queue: seq<WorkQueue.Item>)
    requires OnTrack(env, l, Waiting(queue)) && queue != []
    ensures Genuine(env, queue[0].root, queue[0].block)
    ensures env.roots != [] && queue[0].block in Universe(env.source, env.roots)
  {
    hide Reach;
    assert queue[0] in Waiting(queue).awaited;
    assert ReachFromAny(SourceGraph(env.source), env.roots, queue[0].block);
    ReachInUniverse(env.source, env.roots, queue[0].block);
  }

  lemma NoteKeepsGoing(env: Env, l: Ledger, queue: seq<WorkQueue.Item>)
    requires Going(env, l, Waiting(queue)) && queue != []
    ensures var item := queue[0]; var l' := NoteAt(l, item.root, item.block);
      Going(env, l', Front(Waiting(queue[1..]).awaited, {item.block}, {})) && IsNoted(l'.log, item.block)
  {
    hide Genuine, OnTrack, Covers, NothingLost;
    var item, f, f' := queue[0], Waiting(queue), Front(Waiting(queue[1..]).awaited, {queue[0].block}, {});
    assert queue == [item] + queue[1..];
    assert (item.root, item.block) in NoteAt(l, item.root, item.block).log.noted;
    NoteKeepsOnTrack(env, l, f, f', item);
    NoteKeepsCovers(env, l, f, f', item);
    NothingLostAlike(l, NoteAt(l, item.root, item.block));
  }

  lemma NothingLostAlike(l: Ledger, l': Ledger)
    requires NothingLost(l) && l'.fate == l.fate
    ensures NothingLost(l')
  {
  }

  lemma VisitKeepsGoing(env: Env, l: Ledger, queue: seq<WorkQueue.Item>, b: BlockId)
    requires Going(env, l, Front(Waiting(queue).awaited, {b}, {})) && IsNoted(l.log, b)
    ensures Going(env, Visit(l, b), Expanding(queue, b))
    ensures b in l.visited ==> Going(env, l, Waiting(queue))
  {
    hide Genuine, OnTrack, Covers, IsNoted, NothingLost;
    var f := Front(Waiting(queue).awaited, {b}, {});
    VisitKeepsOnTrack(env, l, f, Expanding(queue, b), b);
    VisitKeepsCovers(env, l, f, Expanding(queue, b), b);
    NothingLostAlike(l, Visit(l, b));
    if b in l.visited {
      assert Visit(l, b) == l by { assert l.visited + {b} == l.visited; }
      VisitKeepsOnTrack(env, l, f, Waiting(queue), b);
      VisitKeepsCovers(env, l, f, Waiting(queue), b);
    }
  }

  /** Steps between visiting a block and queueing its children. */
  lemma WorkKeepsGoing(env: Env, l: Ledger, l': Ledger, f: Front)
    requires Going(env, l, f) && l'.visited == l.visited && l'.log.noted == l.log.noted && l'.log.store == l.log.store
    requires NothingLost(l')
    ensures Going(env, l', f)
  {
    hide Genuine, OnTrack, Covers;
    QuietKeepsFront(env, l, f, l', f);
  }

  lemma SettlingKeepsGoing(env: Env, l: Ledger, l': Ledger, f: Front)
    requires Going(env, l, f) && OnlySettles(l, l')
    ensures Going(env, l', f)
  {
    hide OnTrack, Covers;
    WorkKeepsGoing(env, l, l', f);
  }

  lemma SpreadKeepsGoing(env: Env, l: Ledger, queue: seq<WorkQueue.Item>, root: BlockId, b: BlockId)
    requires Going(env, l, Expanding(queue, b)) && Genuine(env, root, b)
    ensures Going(env, l, Waiting(queue + WorkQueue.Items(root, ChildrenOf(env.source, b))))
  {
    hide Genuine, OnTrack, Covers, NothingLost;
    var f, f' := Expanding(queue, b), Waiting(queue + WorkQueue.Items(root, ChildrenOf(env.source, b)));
    SpreadKeepsOnTrack(env, l, f, f', root, b);
    SpreadKeepsCovers(env, l, f, l, f', root, b);
  }

  /** A block that could not be read has no children to queue. */
  lemma UnreadableKeepsGoing(env: Env, l: Ledger, queue: seq<WorkQueue.Item>, b: BlockId)
    requires Going(env, l, Expanding(queue, b)) && !Readable(env.source, b)
    ensures Going(env, l, Waiting(queue))
  {
    hide Genuine, OnTrack, Covers, NothingLost;
    BarrenKeepsCovers(env, l, Expanding(queue, b), l, Waiting(queue), b);
    TrackForgets(env, l, Expanding(queue, b), Waiting(queue));
  }

  lemma TrackForgets(env: Env, l: Ledger, f: Front, f': Front)
    requires OnTrack(env, l, f) && f'.awaited <= f.awaited
    ensures OnTrack(env, l, f')
  {
    hide Genuine;
  }

  // ------------------------------------------------------------------ stopped copies

  /** Whatever stopped the copy, every visited block is known and failures of the store
      concern the store. */
  ghost predicate Traceable(env: Env, l: Ledger) {
    (exists f: Front :: OnTrack(env, l, f)) && forall g :: g in l.log.store ==> g.subject == DestinationStore
  }

  lemma GoingIsTraceable(env: Env, l: Ledger, f: Front)
    requires Going(env, l, f)
    ensures Traceable(env, l)
  {
  }

  lemma StaysTraceable(env: Env, l: Ledger, l': Ledger)
    requires Traceable(env, l) && l'.visited == l.visited && l'.log.noted == l.log.noted
    requires forall g :: g in l'.log.store ==> g in l.log.store || g.subject == DestinationStore
    ensures Traceable(env, l')
  {
    hide OnTrack, Covers;
    var f :| OnTrack(env, l, f);
    QuietKeepsFront(env, l, f, l', f);
  }

  lemma SettlingStaysTraceable(env: Env, l: Ledger, l': Ledger)
    requires Traceable(env, l) && OnlySettles(l, l')
    ensures Traceable(env, l')
  {
    hide Traceable;
    StaysTraceable(env, l, l');
  }

  /** The report counts the failed blocks as the progress counter did. */
  lemma ReportCountsFailedIds(env: Env, l: Ledger, failures: multiset<CopyFailure>, failedIds: set<Subject>)
    requires Books(env, l, NoParts) && Traceable(env, l) && Explains(l.log, failures)
    requires forall s :: s in failedIds <==> FailedSubject(l.log, s)
    ensures |SubjectsOf(failures)| == |failedIds|
  {
    hide Books, OnTrack, Explains, FailedSubject;
    var f :| OnTrack(env, l, f);
    FailedCountMatchesProgress(env, l, NoParts, f, failures, failedIds);
  }
}
