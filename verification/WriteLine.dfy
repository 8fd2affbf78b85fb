/** The write line of the single-worker copy as values: the buffered jobs, the pending
    publications, and what each of them contributes to the books. */
module WriteLine {
  import opened Options
  import opened BlockGraph
  import opened Tallies
  import opened Ledger
  import opened Destination
  import opened CopyAccounts
  import opened CopyPredicted
  import CopyControl
  import CopyProtocol
  import WriteQueue

  /** A publication makes progress only while something waits for it: it is submitted, and
      at some later point its writes have been made and its completions are ready. */
  datatype Publication =
    | Submitted(jobs: seq<Job>)
    | Executed(jobs: seq<Job>, done: seq<Completion>)

  /** What the traversal loop has in its hand. */
  datatype Hand =
    | Empty
    | Unread(block: BlockId)
    | Undecoded(block: BlockId)
    | Held(block: BlockId)
    | Passing(block: BlockId)

  function UnputIn(pub: Publication): multiset<BlockId> { if pub.Submitted? then BlocksOf(pub.jobs) else multiset{} }

  function OkIn(pub: Publication): multiset<BlockId> {
    if pub.Executed? then BlocksDone(pub.done, false) else multiset{}
  }

  function ErrIn(pub: Publication): multiset<BlockId> {
    if pub.Executed? then BlocksDone(pub.done, true) else multiset{}
  }

  function JobCount(pub: Publication): nat { |pub.jobs| }

  function ByteCount(pub: Publication): nat { WriteQueue.TotalBytes(pub.jobs) }

  function LineParts(buffered: seq<Job>, pending: seq<Publication>, hand: Hand, recording: seq<Completion>): Parts {
    Parts(
      if hand.Unread? || hand.Undecoded? then multiset{hand.block} else multiset{},
      if hand.Held? then multiset{hand.block} else multiset{},
      BlocksOf(buffered) + (if hand.Passing? then multiset{hand.block} else multiset{}) + Gather(pending, UnputIn),
      BlocksDone(recording, false) + Gather(pending, OkIn),
      BlocksDone(recording, true) + Gather(pending, ErrIn),
      if hand.Unread? then 1 else 0,
      0)
  }

  ghost predicate PubHonest(env: Env, pub: Publication) {
    && pub.jobs != [] && JobsGenuine(env, pub.jobs)
    && (pub.Executed? ==> |pub.done| == |pub.jobs| && CopyControl.Aligned(pub.jobs, pub.done))
    && (pub.Executed? ==> AsPredicted(env, pub.done))
  }

  ghost predicate LineHonest(env: Env, buffered: seq<Job>, pending: seq<Publication>) {
    && JobsGenuine(env, buffered)
    && forall k :: 0 <= k < |pending| ==> PubHonest(env, pending[k])
  }

  /** What is known about batch support is true, and it is known before any write has been
      made or answered for. */
  ghost predicate Probed(store: StoreModel, capability: WriteQueue.Capability, l: Ledger, pending: seq<Publication>,
                         recording: seq<Completion>) {
    && Learned(store, capability)
    && (!Settled(capability) ==>
      Unasked(l) && recording == [] && forall k :: 0 <= k < |pending| ==> pending[k].Submitted?)
  }

  /** The counters equal the sums over the pending publications, and the limits hold: the
      byte budget is exceeded only by a single oversized job. */
  ghost predicate Capacity(l: WriteQueue.Limits, pending: seq<Publication>, count: nat, bytes: nat) {
    && count == Tally(pending, JobCount) && bytes == Tally(pending, ByteCount)
    && count <= l.count
    && (l.bytes > 0 && bytes > l.bytes ==> count == 1)
  }

  ghost predicate BufferFits(l: WriteQueue.Limits, buffered: seq<Job>, bufferedBytes: nat) {
    && bufferedBytes == WriteQueue.TotalBytes(buffered)
    && |buffered| <= l.count
    && (l.bytes > 0 && bufferedBytes > l.bytes ==> |buffered| <= 1)
  }

  // ------------------------------------------------------------------ moving along the line

  lemma FlushParts(buffered: seq<Job>, pending: seq<Publication>, hand: Hand)
    ensures LineParts([], pending + [Submitted(buffered)], hand, []) == LineParts(buffered, pending, hand, [])
  {
    var pub := Submitted(buffered);
    GatherConcat(pending, [pub], UnputIn);
    GatherConcat(pending, [pub], OkIn);
    GatherConcat(pending, [pub], ErrIn);
    GatherOne(pub, UnputIn);
    GatherOne(pub, OkIn);
    GatherOne(pub, ErrIn);
    var h := if hand.Passing? then multiset{hand.block} else multiset{};
    assert multiset{} + h + (Gather(pending, UnputIn) + BlocksOf(buffered)) ==
      BlocksOf(buffered) + h + Gather(pending, UnputIn);
    assert multiset{} + (Gather(pending, OkIn) + multiset{}) == multiset{} + Gather(pending, OkIn);
    assert multiset{} + (Gather(pending, ErrIn) + multiset{}) == multiset{} + Gather(pending, ErrIn);
  }

  lemma PushParts(buffered: seq<Job>, pending: seq<Publication>, job: Job)
    ensures LineParts(buffered + [job], pending, Empty, []) == LineParts(buffered, pending, Passing(job.block), [])
  {
    BlocksOfConcat(buffered, [job]);
    assert [job][1..] == [];
    assert BlocksOf([job]) == multiset{job.block} + BlocksOf([job][1..]);
    assert BlocksOf(buffered + [job]) + multiset{} == BlocksOf(buffered) + multiset{job.block};
  }

  /** A publication's writes are made. */
  lemma ExecuteParts(buffered: seq<Job>, pending: seq<Publication>, hand: Hand, k: nat, done: seq<Completion>)
    requires k < |pending| && pending[k].Submitted?
    requires BlocksDone(done, false) + BlocksDone(done, true) == BlocksOf(pending[k].jobs)
    ensures var p, p' := LineParts(buffered, pending, hand, []),
                         LineParts(buffered, pending[k := Executed(pending[k].jobs, done)], hand, []);
      && BlocksDone(done, false) + BlocksDone(done, true) <= p.waiting
      && p' == p.(waiting := p.waiting - BlocksDone(done, false) - BlocksDone(done, true),
                  putOk := p.putOk + BlocksDone(done, false), putErr := p.putErr + BlocksDone(done, true))
  {
    var pub := Executed(pending[k].jobs, done);
    GatherUpdate(pending, k, pub, UnputIn);
    GatherUpdate(pending, k, pub, OkIn);
    GatherUpdate(pending, k, pub, ErrIn);
    GatherHolds(pending, k, UnputIn);
    var ok, err := BlocksDone(done, false), BlocksDone(done, true);
    WaitingShrinks(BlocksOf(buffered) + (if hand.Passing? then multiset{hand.block} else multiset{}),
                   Gather(pending, UnputIn), Gather(pending[k := pub], UnputIn), ok, err);
    PartGrows(multiset{}, Gather(pending, OkIn), Gather(pending[k := pub], OkIn), ok);
    PartGrows(multiset{}, Gather(pending, ErrIn), Gather(pending[k := pub], ErrIn), err);
  }

  lemma WaitingShrinks(front: multiset<BlockId>, before: multiset<BlockId>, after: multiset<BlockId>,
                       ok: multiset<BlockId>, err: multiset<BlockId>)
    requires after + (ok + err) == before + multiset{} && ok + err <= before
    ensures ok + err <= front + before && front + after == front + before - ok - err
  {
    forall b ensures after[b] + ok[b] + err[b] == before[b] {
      assert (after + (ok + err))[b] == (before + multiset{})[b];
    }
    assert front + after == front + before - ok - err;
  }

  lemma PartGrows(front: multiset<BlockId>, before: multiset<BlockId>, after: multiset<BlockId>,
                  more: multiset<BlockId>)
    requires after + multiset{} == before + more
    ensures front + after == front + before + more
  {
    assert after == before + more;
  }

  /** A finished publication leaves the line; its completions are being recorded. */
  lemma TakeOutParts(buffered: seq<Job>, pending: seq<Publication>, hand: Hand, k: nat)
    requires k < |pending| && pending[k].Executed?
    ensures LineParts(buffered, pending[..k] + pending[k + 1..], hand, pending[k].done)
         == LineParts(buffered, pending, hand, [])
  {
    GatherWithout(pending, k, UnputIn);
    GatherWithout(pending, k, OkIn);
    GatherWithout(pending, k, ErrIn);
    var rest := pending[..k] + pending[k + 1..];
    assert multiset{} + (BlocksDone(pending[k].done, false) + Gather(rest, OkIn)) ==
      BlocksDone(pending[k].done, false) + Gather(rest, OkIn);
    assert multiset{} + (BlocksDone(pending[k].done, true) + Gather(rest, ErrIn)) ==
      BlocksDone(pending[k].done, true) + Gather(rest, ErrIn);
    assert multiset{} + Gather(rest, UnputIn) == Gather(rest, UnputIn);
  }

  /** One completion is recorded. */
  lemma RecordParts(buffered: seq<Job>, pending: seq<Publication>, hand: Hand, recording: seq<Completion>)
    requires recording != []
    ensures var p, p', c := LineParts(buffered, pending, hand, recording),
                            LineParts(buffered, pending, hand, recording[1..]), recording[0];
      && (c.error.None? ==> c.block in p.putOk && p' == p.(putOk := p.putOk - multiset{c.block}))
      && (c.error.Some? ==> c.block in p.putErr && p' == p.(putErr := p.putErr - multiset{c.block}))
  {
    var c := recording[0];
    var one := multiset{c.block};
    if c.error.None? {
      PeelOne(BlocksDone(recording[1..], false), Gather(pending, OkIn), c.block);
      assert multiset{} + BlocksDone(recording[1..], true) == BlocksDone(recording[1..], true);
    } else {
      PeelOne(BlocksDone(recording[1..], true), Gather(pending, ErrIn), c.block);
      assert multiset{} + BlocksDone(recording[1..], false) == BlocksDone(recording[1..], false);
    }
  }

  lemma PeelOne(a: multiset<BlockId>, g: multiset<BlockId>, b: BlockId)
    ensures b in (multiset{b} + a) + g && ((multiset{b} + a) + g) - multiset{b} == a + g
  {
  }

  /** Dropping the buffer leaves its blocks waiting nowhere. */
  lemma DiscardParts(buffered: seq<Job>, pending: seq<Publication>)
    ensures var p := LineParts(buffered, pending, Empty, []);
      && BlocksOf(buffered) <= p.waiting
      && LineParts([], pending, Empty, []) == p.(waiting := p.waiting - BlocksOf(buffered))
  {
    var g := Gather(pending, UnputIn);
    assert multiset{} + multiset{} + g == (BlocksOf(buffered) + multiset{} + g) - BlocksOf(buffered);
  }

  /** The job in hand stops being held and becomes waiting. */
  lemma PassParts(buffered: seq<Job>, pending: seq<Publication>, b: BlockId)
    ensures var p := LineParts(buffered, pending, Held(b), []);
      && b in p.held
      && LineParts(buffered, pending, Passing(b), [])
         == p.(held := p.held - multiset{b}, waiting := p.waiting + multiset{b})
  {
    var g := Gather(pending, UnputIn);
    assert BlocksOf(buffered) + multiset{b} + g == (BlocksOf(buffered) + multiset{} + g) + multiset{b};
    assert multiset{b} - multiset{b} == multiset{};
  }

  lemma NothingOnLine(hand: Hand)
    requires hand == Empty
    ensures LineParts([], [], hand, []) == NoParts
  {
  }

  // -------------------------------------------------------------- one by one on values

  lemma {:induction false} AlignedBlocks(jobs: seq<Job>, done: seq<Completion>)
    requires |done| == |jobs| && CopyControl.Aligned(jobs, done)
    ensures BlocksDone(done, false) + BlocksDone(done, true) == BlocksOf(jobs)
  {
    if jobs != [] {
      forall k | 0 <= k < |done[1..]|
        ensures done[1..][k].block == jobs[1..][k].block && done[1..][k].bytesLen == |jobs[1..][k].bytes|
          && done[1..][k].countAsCopied == jobs[1..][k].countAsCopied
      {
        assert done[1..][k] == done[k + 1] && jobs[1..][k] == jobs[k + 1];
      }
      AlignedBlocks(jobs[1..], done[1..]);
      var one, a, b := multiset{jobs[0].block}, BlocksDone(done[1..], false), BlocksDone(done[1..], true);
      assert (one + a) + (multiset{} + b) == one + (a + b) == (multiset{} + a) + (one + b);
    }
  }

  // ------------------------------------------------------------ keeping the books

  /** The books are straight and the destination is accounted for. */
  ghost predicate Kept(env: Env, l: Ledger, p: Parts) {
    Books(env, l, p) && Faithful(env, l, p)
  }

  /** What waiting for writes may change: completions are recorded, nothing else. */
  ghost predicate OnlySettles(l: Ledger, l': Ledger) {
    && l'.visited == l.visited && l'.log.noted == l.log.noted
    && l'.log.children == l.log.children && l'.log.store == l.log.store
    && l'.metrics.readCount == l.metrics.readCount && l'.metrics.attempted == l.metrics.attempted
    && (forall b :: b in l'.fate ==>
          (b in l.fate && l'.fate[b] == l.fate[b]) || WentWell(l'.fate[b]) || l'.fate[b].WriteFailed?)
  }

  /** The books after the store answered for the jobs in `done`. */
  function AfterAnswers(p: Parts, done: seq<Completion>): Parts {
    p.(waiting := p.waiting - BlocksDone(done, false) - BlocksDone(done, true),
       putOk := p.putOk + BlocksDone(done, false), putErr := p.putErr + BlocksDone(done, true))
  }

  lemma NoAnswers(p: Parts)
    ensures AfterAnswers(p, []) == p
  {
    assert p.waiting - multiset{} - multiset{} == p.waiting && p.putOk + multiset{} == p.putOk &&
      p.putErr + multiset{} == p.putErr;
  }

  lemma OneMoreAnswer(p: Parts, done: seq<Completion>, c: Completion)
    ensures var q, one := AfterAnswers(p, done), multiset{c.block};
      AfterAnswers(p, done + [c]) == if c.error.None? then q.(waiting := q.waiting - one, putOk := q.putOk + one)
                                                     else q.(waiting := q.waiting - one, putErr := q.putErr + one)
  {
    DoneGrows(done, c, false);
    DoneGrows(done, c, true);
    SplitAnswers(p.waiting, BlocksDone(done, false), BlocksDone(done, true), multiset{c.block});
    if c.error.None? {
      AppendBag(p.putOk, BlocksDone(done, false), multiset{c.block});
      AppendBag(p.putErr, BlocksDone(done, true), multiset{});
    } else {
      AppendBag(p.putErr, BlocksDone(done, true), multiset{c.block});
      AppendBag(p.putOk, BlocksDone(done, false), multiset{});
    }
  }

  lemma SplitAnswers(w: multiset<BlockId>, a: multiset<BlockId>, b: multiset<BlockId>, one: multiset<BlockId>)
    ensures w - (a + one) - (b + multiset{}) == w - a - b - one
    ensures w - (a + multiset{}) - (b + one) == w - a - b - one
  {
  }

  lemma AppendBag(a: multiset<BlockId>, b: multiset<BlockId>, c: multiset<BlockId>)
    ensures a + (b + c) == (a + b) + c && a + multiset{} == a && b + multiset{} == b
  {
  }

  /** A single write that went well. */
  lemma KeptAfterPut(env: Env, l: Ledger, p: Parts, job: Job)
    requires Kept(env, l, p) && GenuineJob(env, job) && job.block in p.waiting
    requires env.store.Predictable? ==> WriteError(env, job.block).None?
    ensures Kept(env, Land(env, l, job),
        p.(waiting := p.waiting - multiset{job.block}, putOk := p.putOk + multiset{job.block}))
  {
    hide Books, Faithful;
    LandOne(env, l, p, job, true);
  }

  lemma EmptyBag(a: multiset<BlockId>)
    ensures a - multiset{} == a && a + multiset{} == a
  {
  }

  /** A single write that failed. */
  lemma KeptAfterRefusal(env: Env, l: Ledger, p: Parts, b: BlockId)
    requires Kept(env, l, p) && b in p.waiting && (env.store.Predictable? ==> WriteError(env, b).Some?)
    ensures Kept(env, l, p.(waiting := p.waiting - multiset{b}, putErr := p.putErr + multiset{b}))
  {
    hide Books, Faithful;
    RefuseOne(env, l, p, b);
  }

  /** A whole batch accepted. */
  lemma KeptAfterBatch(env: Env, l: Ledger, p: Parts, jobs: seq<Job>)
    requires Kept(env, l, p) && JobsGenuine(env, jobs) && BlocksOf(jobs) <= p.waiting
    requires env.store.Predictable? ==> forall j :: 0 <= j < |jobs| ==> jobs[j].block !in env.store.writeErrors
    ensures Kept(env, CopyProtocol.LandAll(env, l, jobs), AfterAnswers(p, CopyProtocol.Completions(jobs, None)))
  {
    hide Books, Faithful;
    CompletionsDone(jobs, None);
    CopyProtocol.LandAllFrame(env, l, jobs);
    EmptyBag(p.waiting - BlocksOf(jobs));
    EmptyBag(p.putErr);
    AnswerKeepsBooks(env, l, p, CopyProtocol.LandAll(env, l, jobs), BlocksOf(jobs), multiset{});
    LandAllKeepsFaithful(env, l, p, jobs);
  }

  /** A batch that failed as a whole, whatever part of it was written. */
  lemma KeptAfterFailedBatch(env: Env, l: Ledger, p: Parts, jobs: seq<Job>, m: string, landed: set<BlockId>)
    requires Kept(env, l, p) && !Orderly(env) && JobsGenuine(env, jobs) && BlocksOf(jobs) <= p.waiting
    ensures Kept(env, CopyProtocol.LandSome(env, l, jobs, landed),
        AfterAnswers(p, CopyProtocol.Completions(jobs, Some(m))))
  {
    hide Books, Faithful;
    CompletionsDone(jobs, Some(m));
    CopyProtocol.LandSomeFrame(env, l, jobs, landed);
    EmptyBag(p.waiting);
    EmptyBag(p.putOk);
    AnswerKeepsBooks(env, l, p, CopyProtocol.LandSome(env, l, jobs, landed), multiset{}, BlocksOf(jobs));
    LandSomeKeepsFaithful(env, l, p, jobs, landed);
  }

  /** Recording a completion settles its block's fate. */
  lemma KeptAfterSettle(env: Env, l: Ledger, p: Parts, c: Completion)
    requires Kept(env, l, p) && (c.countAsCopied <==> env.limits.mode == WriteQueue.ReadBeforeWrite)
    requires c.block in (if c.error.None? then p.putOk else p.putErr)
    requires Orderly(env) ==> c.error == WriteError(env, c.block)
    ensures Kept(env, Settle(l, c), if c.error.None? then p.(putOk := p.putOk - multiset{c.block})
                                                    else p.(putErr := p.putErr - multiset{c.block}))
    ensures OnlySettles(l, Settle(l, c))
  {
    hide Books, Faithful;
    SettleKeepsFaithful(env, l, p, c);
    if c.error.None? { SettleOkKeepsBooks(env, l, p, c); } else { SettleErrKeepsBooks(env, l, p, c); }
  }

  lemma SettlesTwice(a: Ledger, b: Ledger, c: Ledger)
    requires OnlySettles(a, b) && OnlySettles(b, c)
    ensures OnlySettles(a, c)
  {
  }
}
