/** What a copy does to the destination. For any store at all: exactly the blocks some write
    landed can differ from what was there before, and a block is reported as written only if
    it landed. For a store whose answers are predictable the fate of every block is known in
    advance as well. */
module Destination {
  import opened Options
  import opened BlockGraph
  import opened Ledger
  import WriteQueue

  /** The block is readable and, when the destination is checked first, absent from it. */
  predicate WantsWrite(env: Env, b: BlockId) {
    && Readable(env.source, b)
    && (env.limits.mode == WriteQueue.ReadBeforeWrite ==> b !in env.checkErrors && b !in env.initial)
  }

  /** No look-up misleads the copy: the store looks up truly, or nothing is looked up. */
  predicate NeverMisled(env: Env) { LooksUpTruly(env.store) || env.limits.mode == WriteQueue.BlindWrite }

  /** A store whose writes fail per block. One that supports batches must take every block
      that this copy can offer it, because a failed batch call fails all its jobs. */
  ghost predicate Orderly(env: Env) {
    && env.store.Predictable?
    && (env.store.batches ==>
      forall b :: b in ReachableSet(env.source, env.roots) && WantsWrite(env, b) ==> b !in env.store.writeErrors)
  }

  function WriteError(env: Env, b: BlockId): Option<string>
    requires env.store.Predictable?
  {
    if b in env.store.writeErrors then Some(env.store.writeErrors[b]) else None
  }

  function ExpectedFate(env: Env, b: BlockId): Fate
    requires env.store.Predictable?
  {
    if !Readable(env.source, b) then ReadFailed
    else if env.limits.mode == WriteQueue.ReadBeforeWrite && b in env.checkErrors then CheckFailed(env.checkErrors[b])
    else if env.limits.mode == WriteQueue.ReadBeforeWrite && b in env.initial then Skipped
    else if b in env.store.writeErrors then WriteFailed(env.store.writeErrors[b])
    else if env.limits.mode == WriteQueue.ReadBeforeWrite then Copied
    else Written
  }

  /** The completions an orderly store gives, whatever jobs are published together. */
  ghost predicate AsPredicted(env: Env, done: seq<Completion>) {
    Orderly(env) ==> forall k :: 0 <= k < |done| ==> done[k].error == WriteError(env, done[k].block)
  }

  // ------------------------------------------------------------------ batch support

  predicate Settled(capability: WriteQueue.Capability) {
    capability == WriteQueue.Supported || capability == WriteQueue.Unsupported
  }

  function Truth(store: StoreModel): WriteQueue.Capability
    requires FixedSupport(store).Some?
  {
    if FixedSupport(store).value then WriteQueue.Supported else WriteQueue.Unsupported
  }

  /** What has been learned about a store with fixed batch support is true. */
  predicate Learned(store: StoreModel, capability: WriteQueue.Capability) {
    FixedSupport(store).Some? && Settled(capability) ==> capability == Truth(store)
  }

  /** No write has been made and none has been answered. */
  ghost predicate Unasked(l: Ledger) {
    l.landed == {} && forall b :: b in l.fate ==> !WentWell(l.fate[b]) && !l.fate[b].WriteFailed?
  }

  // ---------------------------------------------------------------- the destination

  function JobFor(env: Env, b: BlockId): Job
    requires Readable(env.source, b)
  {
    WriteQueue.Job(b, env.source[b].bytes, env.limits.mode == WriteQueue.ReadBeforeWrite)
  }

  /** The content of a block after a write over the initial destination. */
  function ValueAfterWrite(env: Env, b: BlockId): Bytes
    requires Readable(env.source, b)
  {
    if b in env.initial && !env.overwrites then env.initial[b] else env.source[b].bytes
  }

  predicate WentWell(f: Fate) { f.Copied? || f.Written? }

  /** The block is in the destination as a write leaves it, or exactly as it was. */
  ghost predicate BlockHolds(env: Env, l: Ledger, b: BlockId) {
    if b in l.landed
    then Readable(env.source, b) && b in l.blocks && l.blocks[b] == ValueAfterWrite(env, b)
    else (b in l.blocks <==> b in env.initial) && (b in l.blocks ==> l.blocks[b] == env.initial[b])
  }

  ghost predicate BlocksHold(env: Env, l: Ledger) {
    forall b :: BlockHolds(env, l, b)
  }

  /** A landed block was visited and has been answered for; what was answered well landed. */
  ghost predicate Landed(l: Ledger, p: Parts) {
    && (forall b :: b in l.landed ==> b in l.visited && b !in p.reading + p.held + p.waiting)
    && (forall b :: b in l.landed && b in l.fate ==> WentWell(l.fate[b]) || l.fate[b].WriteFailed?)
    && (forall b :: b in p.putOk ==> b in l.landed)
    && (forall b :: b in l.fate && WentWell(l.fate[b]) ==> b in l.landed)
  }

  /** Nothing unreachable is visited, and only what was there already is skipped. */
  ghost predicate Grounded(env: Env, l: Ledger) {
    && l.visited <= ReachableSet(env.source, env.roots)
    && (LooksUpTruly(env.store) ==> forall b :: b in l.fate && l.fate[b].Skipped? ==> b in env.initial)
  }

  /** Every block meets the fate that was expected of it, unless a stop intervened. */
  ghost predicate FatesExpected(env: Env, l: Ledger, p: Parts)
    requires env.store.Predictable?
  {
    && (forall b :: b in l.fate ==> l.fate[b] == ExpectedFate(env, b) || l.fate[b].Abandoned? || l.fate[b].Discarded?)
    && (forall b :: b in p.waiting + p.putOk + p.putErr ==> WantsWrite(env, b))
    && (forall b :: b in p.putOk + multiset(l.landed) ==> b !in env.store.writeErrors)
    && (forall b :: b in p.putErr ==> b in env.store.writeErrors)
  }

  /** What holds of the destination at every moment, with the last clause for orderly stores. */
  ghost predicate Faithful(env: Env, l: Ledger, p: Parts) {
    && BlocksHold(env, l)
    && Landed(l, p)
    && Grounded(env, l)
    && (Orderly(env) ==> FatesExpected(env, l, p))
  }

  lemma OpenedFaithful(env: Env)
    ensures Faithful(env, Opened(env), NoParts)
  {
  }

  /** A block no write has answered for is in the destination exactly as it was. */
  lemma UnwrittenIsInitial(env: Env, l: Ledger, p: Parts, b: BlockId)
    requires Faithful(env, l, p) && b in p.reading + p.held + p.waiting
    ensures b !in l.landed
    ensures (b in l.blocks <==> b in env.initial) && (b in l.blocks ==> l.blocks[b] == env.initial[b])
  {
    hide Grounded, FatesExpected, Orderly;
    assert BlockHolds(env, l, b);
  }

  // ------------------------------------------------------- every operation keeps it

  /** A fate other than a good write leaves the destination alone. */
  lemma FinishKeepsFaithful(env: Env, l: Ledger, p: Parts, l': Ledger, p': Parts, b: BlockId, f: Fate)
    requires Faithful(env, l, p) && b !in l.fate && !WentWell(f)
    requires l'.fate == l.fate[b := f] && l'.landed == l.landed && l'.blocks == l.blocks && l'.visited == l.visited
    requires b in p.reading + p.held + p.waiting || f.WriteFailed?
    requires f.Skipped? && LooksUpTruly(env.store) ==> b in env.initial
    requires Orderly(env) ==> f == ExpectedFate(env, b) || f.Abandoned? || f.Discarded?
    requires p'.reading <= p.reading && p'.held <= p.held && p'.waiting <= p.waiting
    requires p'.putOk == p.putOk && p'.putErr <= p.putErr
    ensures Faithful(env, l', p')
  {
    FinishKeepsLanded(l, p, l', p', b, f);
    if Orderly(env) { FinishKeepsExpected(env, l, p, l', p', b, f); }
    BlocksHoldStill(env, l, l');
    hide FatesExpected, Orderly, Landed, BlocksHold;
  }

  lemma FinishKeepsLanded(l: Ledger, p: Parts, l': Ledger, p': Parts, b: BlockId, f: Fate)
    requires Landed(l, p) && b !in l.fate && !WentWell(f)
    requires l'.fate == l.fate[b := f] && l'.landed == l.landed && l'.visited == l.visited
    requires b in p.reading + p.held + p.waiting || f.WriteFailed?
    requires p'.reading <= p.reading && p'.held <= p.held && p'.waiting <= p.waiting && p'.putOk == p.putOk
    ensures Landed(l', p')
  {
    SubBag(p'.reading + p'.held + p'.waiting, p.reading + p.held + p.waiting);
  }

  lemma SubBag(a: multiset<BlockId>, b: multiset<BlockId>)
    requires a <= b
    ensures forall x :: x in a ==> x in b
  {
  }

  lemma FinishKeepsExpected(env: Env, l: Ledger, p: Parts, l': Ledger, p': Parts, b: BlockId, f: Fate)
    requires env.store.Predictable? && FatesExpected(env, l, p) && l'.fate == l.fate[b := f] && l'.landed == l.landed
    requires f == ExpectedFate(env, b) || f.Abandoned? || f.Discarded?
    requires p'.putOk == p.putOk && p'.waiting <= p.waiting && p'.putErr <= p.putErr
    ensures FatesExpected(env, l', p')
  {
    hide ExpectedFate, WantsWrite;
    SubBag(p'.waiting + p'.putOk + p'.putErr, p.waiting + p.putOk + p.putErr);
  }

  lemma BlocksHoldStill(env: Env, l: Ledger, l': Ledger)
    requires BlocksHold(env, l) && l'.landed == l.landed && l'.blocks == l.blocks
    ensures BlocksHold(env, l')
  {
    forall x ensures BlockHolds(env, l', x) { assert BlockHolds(env, l, x); }
  }

  /** Steps that neither write nor finish a block. */
  lemma QuietKeepsFaithful(env: Env, l: Ledger, p: Parts, l': Ledger, p': Parts)
    requires Faithful(env, l, p)
    requires l'.fate == l.fate && l'.landed == l.landed && l'.blocks == l.blocks && l'.visited == l.visited
    requires p'.reading + p'.held <= p.reading + p.held
    requires p'.waiting == p.waiting && p'.putOk == p.putOk && p'.putErr == p.putErr
    ensures Faithful(env, l', p')
  {
    SubBag(p'.reading + p'.held, p.reading + p.held);
    BlocksHoldStill(env, l, l');
    hide BlocksHold, Orderly, WantsWrite, ExpectedFate;
  }

  lemma VisitKeepsFaithful(env: Env, l: Ledger, p: Parts, p': Parts, b: BlockId)
    requires Faithful(env, l, p) && b !in l.visited && b in ReachableSet(env.source, env.roots)
    requires p' == p.(reading := p.reading + multiset{b}, unread := p'.unread)
    ensures Faithful(env, Visit(l, b), p')
  {
    BlocksHoldStill(env, l, Visit(l, b));
    hide BlocksHold, Orderly, WantsWrite, ExpectedFate;
  }

  lemma AcceptKeepsFaithful(env: Env, l: Ledger, p: Parts, p': Parts, b: BlockId)
    requires Faithful(env, l, p) && b in p.held && (Orderly(env) ==> WantsWrite(env, b))
    requires p' == p.(held := p.held - multiset{b}, waiting := p.waiting + multiset{b}, uncounted := p'.uncounted)
    ensures Faithful(env, l, p')
  {
    hide BlocksHold, Orderly, WantsWrite, ExpectedFate, Grounded;
    assert p.held == p'.held + multiset{b};
    assert p'.reading + p'.held + p'.waiting == p.reading + p.held + p.waiting;
    forall x | x in p'.waiting + p'.putOk + p'.putErr ensures x == b || x in p.waiting + p.putOk + p.putErr { }
  }

  /** A block is written: it was not there on account of an earlier write. The answer may
      still be a failure, if it was part of a batch that failed as a whole. */
  lemma LandKeepsFaithful(env: Env, l: Ledger, p: Parts, p': Parts, b: BlockId)
    requires Books(env, l, p) && Faithful(env, l, p) && b in p.waiting && Readable(env.source, b)
    requires var rest := p.waiting - multiset{b};
      || p' == p.(waiting := rest, putOk := p.putOk + multiset{b})
      || (!Orderly(env) && p' == p.(waiting := rest, putErr := p.putErr + multiset{b}))
    requires Orderly(env) ==> WriteError(env, b).None?
    ensures Faithful(env, Land(env, l, JobFor(env, b)), p')
  {
    var l' := Land(env, l, JobFor(env, b));
    UnwrittenIsInitial(env, l, p, b);
    WaitingOnce(env, l, p, b);
    LandKeepsLanded(l, p, l', p', b);
    if Orderly(env) { LandKeepsExpected(env, l, p, l', b); }
    LandKeepsBlocks(env, l, b);
    hide FatesExpected, Orderly, Landed, Books, BlocksHold, Land;
  }

  lemma LandKeepsBlocks(env: Env, l: Ledger, b: BlockId)
    requires BlocksHold(env, l) && Readable(env.source, b) && b !in l.landed
    ensures BlocksHold(env, Land(env, l, JobFor(env, b)))
  {
    var l' := Land(env, l, JobFor(env, b));
    forall x ensures BlockHolds(env, l', x) { assert BlockHolds(env, l, x) && BlockHolds(env, l, b); }
  }

  lemma WaitingOnce(env: Env, l: Ledger, p: Parts, b: BlockId)
    requires Books(env, l, p) && b in p.waiting
    ensures b in l.visited && b !in l.fate && (p.reading + p.held + (p.waiting - multiset{b}))[b] == 0
  {
    hide Books;
    PartIsOpen(env, l, p, b);
  }

  lemma LandKeepsLanded(l: Ledger, p: Parts, l': Ledger, p': Parts, b: BlockId)
    requires Landed(l, p) && b in l.visited && b !in l.fate
    requires (p.reading + p.held + (p.waiting - multiset{b}))[b] == 0
    requires l'.landed == l.landed + {b} && l'.visited == l.visited && l'.fate == l.fate
    requires p'.reading == p.reading && p'.held == p.held && p'.waiting == p.waiting - multiset{b}
    requires p'.putOk <= p.putOk + multiset{b}
    ensures Landed(l', p')
  {
    SubBag(p'.reading + p'.held + p'.waiting, p.reading + p.held + p.waiting);
    SubBag(p'.putOk, p.putOk + multiset{b});
  }

  lemma LandKeepsExpected(env: Env, l: Ledger, p: Parts, l': Ledger, b: BlockId)
    requires env.store.Predictable? && FatesExpected(env, l, p) && b in p.waiting && b !in env.store.writeErrors
    requires l'.fate == l.fate && l'.landed == l.landed + {b}
    ensures FatesExpected(env, l', p.(waiting := p.waiting - multiset{b}, putOk := p.putOk + multiset{b}))
  {
    hide ExpectedFate, WantsWrite;
    var p' := p.(waiting := p.waiting - multiset{b}, putOk := p.putOk + multiset{b});
    SubBag(p'.waiting + p'.putOk + p'.putErr, p.waiting + p.putOk + p.putErr);
  }

  /** A write fails without a trace in the destination. */
  lemma RefuseKeepsFaithful(env: Env, l: Ledger, p: Parts, b: BlockId)
    requires Faithful(env, l, p) && b in p.waiting && (Orderly(env) ==> WriteError(env, b).Some?)
    ensures Faithful(env, l, p.(waiting := p.waiting - multiset{b}, putErr := p.putErr + multiset{b}))
  {
    hide BlocksHold, Orderly, WantsWrite, ExpectedFate, Grounded;
    var p' := p.(waiting := p.waiting - multiset{b}, putErr := p.putErr + multiset{b});
    SubBag(p'.waiting + p'.putOk + p'.putErr, p.waiting + p.putOk + p.putErr);
    SubBag(p'.reading + p'.held + p'.waiting, p.reading + p.held + p.waiting);
  }

  /** Recording a completion: what is reported as written has landed, and an orderly
      store's block gets the fate that was expected of it. */
  lemma SettleKeepsFaithful(env: Env, l: Ledger, p: Parts, c: Completion)
    requires Books(env, l, p) && Faithful(env, l, p)
    requires c.block in (if c.error.None? then p.putOk else p.putErr)
    requires Orderly(env) ==> c.error == WriteError(env, c.block)
    requires c.countAsCopied <==> env.limits.mode == WriteQueue.ReadBeforeWrite
    ensures Orderly(env) ==> SettledFate(c) == ExpectedFate(env, c.block)
    ensures Faithful(env, Settle(l, c), if c.error.None? then p.(putOk := p.putOk - multiset{c.block})
                                                         else p.(putErr := p.putErr - multiset{c.block}))
  {
    hide Books, Landed, BlocksHold, Grounded, Orderly;
    var b, f := c.block, SettledFate(c);
    assert b in p.waiting + p.putOk + p.putErr;
    PartIsOpen(env, l, p, b);
    if c.error.None? {
      SettleOkKeepsFaithful(env, l, p, c);
    } else {
      hide FatesExpected;
      FinishKeepsFaithful(env, l, p, Settle(l, c), p.(putErr := p.putErr - multiset{b}), b, f);
    }
  }

  lemma SettleOkKeepsFaithful(env: Env, l: Ledger, p: Parts, c: Completion)
    requires Faithful(env, l, p) && c.error.None? && c.block in p.putOk && c.block !in l.fate
    requires Orderly(env) ==> SettledFate(c) == ExpectedFate(env, c.block)
    ensures Faithful(env, Settle(l, c), p.(putOk := p.putOk - multiset{c.block}))
  {
    hide WantsWrite, ExpectedFate, BlocksHold;
    var l', p' := Settle(l, c), p.(putOk := p.putOk - multiset{c.block});
    BlocksHoldStill(env, l, l');
    SettleOkKeepsLanded(l, p, c);
    if Orderly(env) { SettleOkKeepsExpected(env, l, p, c); }
    hide FatesExpected, Landed;
  }

  lemma SettleOkKeepsLanded(l: Ledger, p: Parts, c: Completion)
    requires Landed(l, p) && c.error.None? && c.block in p.putOk && c.block !in l.fate
    ensures Landed(Settle(l, c), p.(putOk := p.putOk - multiset{c.block}))
  {
    SubBag(p.putOk - multiset{c.block}, p.putOk);
  }

  lemma SettleOkKeepsExpected(env: Env, l: Ledger, p: Parts, c: Completion)
    requires env.store.Predictable? && FatesExpected(env, l, p) && c.error.None? && c.block in p.putOk
    requires SettledFate(c) == ExpectedFate(env, c.block)
    ensures FatesExpected(env, Settle(l, c), p.(putOk := p.putOk - multiset{c.block}))
  {
    hide WantsWrite, ExpectedFate;
    var p' := p.(putOk := p.putOk - multiset{c.block});
    SubBag(p'.waiting + p'.putOk + p'.putErr, p.waiting + p.putOk + p.putErr);
    SubBag(p'.putOk + multiset(l.landed), p.putOk + multiset(l.landed));
  }

  lemma {:induction false} DiscardKeepsFaithful(env: Env, l: Ledger, p: Parts, jobs: seq<Job>)
    requires Books(env, l, p) && Faithful(env, l, p) && BlocksOf(jobs) <= p.waiting
    ensures Faithful(env, Discard(l, jobs), p.(waiting := p.waiting - BlocksOf(jobs)))
    decreases |jobs|
  {
    hide Books, Faithful;
    if jobs == [] {
      assert p.waiting - multiset{} == p.waiting;
    } else {
      var b := jobs[0].block;
      assert b in BlocksOf(jobs) && b in Outstanding(p);
      PartIsOpen(env, l, p, b);
      var l', p' := l.(fate := l.fate[b := Discarded]), p.(waiting := p.waiting - multiset{b});
      DiscardOneKeepsBooks(env, l, p, b);
      FinishKeepsFaithful(env, l, p, l', p', b, Discarded);
      DiscardKeepsFaithful(env, l', p', jobs[1..]);
      assert p'.waiting - BlocksOf(jobs[1..]) == p.waiting - BlocksOf(jobs);
    }
  }
}
