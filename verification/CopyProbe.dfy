/** How the multi-worker copy learns whether the store takes batches. */
module CopyProbe {
  import opened Ledger
  import opened Destination
  import opened CopyProtocol
  import opened CopyControl
  import opened CopyProgress
  import opened CopyPredicted
  import opened CopyTheorem
  import WriteQueue

  /** The step is a batch call, and the store answers it. */
  predicate AnswersBatch(s: State, e: Event) {
    && e.Write? && e.writer < |s.writers|
    && s.writers[e.writer].Publishing? && OffersBatch(s.writers[e.writer].jobs, s.capability)
  }

  ghost predicate BatchAnswered(env: Env, s: State, events: seq<Event>)
    requires IsRun(env, s, events)
    decreases |events|
  {
    events != [] && (AnswersBatch(s, events[0]) || BatchAnswered(env, Apply(env, s, events[0]), events[1..]))
  }

  /** The capability settles when a batch call is answered and at no other time, and what
      it says of a store with fixed support is true and never taken back. */
  lemma StepSettles(env: Env, s: State, e: Event)
    requires Enabled(env, s, e) && Learned(env.store, s.capability)
    ensures Settled(Apply(env, s, e).capability) <==> Settled(s.capability) || AnswersBatch(s, e)
    ensures Learned(env.store, Apply(env, s, e).capability)
    ensures FixedSupport(env.store).Some? && Settled(s.capability) ==> Apply(env, s, e).capability == s.capability
  {
    match e
    case Traverse(i, sawStop, check) => TraverseLearnsNothing(env, s, i, sawStop, check);
    case Write(w, answer) => WriteSettles(env, s, w, answer);
    case _ =>
  }

  lemma TraverseLearnsNothing(env: Env, s: State, i: nat, sawStop: bool, check: CheckAnswer)
    requires CanTraverse(env, s, i, sawStop, check)
    ensures TraverseStep(env, s, i, sawStop, check).capability == s.capability
  {
  }

  lemma WriteSettles(env: Env, s: State, w: nat, answer: WriteAnswer)
    requires CanWrite(env, s, w, answer) && Learned(env.store, s.capability)
    ensures var c := WriteStep(env, s, w, answer).capability;
      && (Settled(c) <==> Settled(s.capability) || AnswersBatch(s, Write(w, answer)))
      && Learned(env.store, c)
      && (FixedSupport(env.store).Some? && Settled(s.capability) ==> c == s.capability)
  {
  }

  /** The same for runs of any length, from any state. */
  lemma {:induction false} RunSettles(env: Env, s: State, events: seq<Event>)
    requires IsRun(env, s, events) && Learned(env.store, s.capability)
    ensures Settled(RunEnd(env, s, events).capability) <==> Settled(s.capability) || BatchAnswered(env, s, events)
    ensures Learned(env.store, RunEnd(env, s, events).capability)
    ensures FixedSupport(env.store).Some? && Settled(s.capability) ==> RunEnd(env, s, events).capability == s.capability
    decreases |events|
  {
    hide Enabled, Apply, Learned, Settled, AnswersBatch;
    if events != [] {
      StepSettles(env, s, events[0]);
      RunSettles(env, Apply(env, s, events[0]), events[1..]);
    }
  }

  // ----------------------------------------------------- nothing is written unprobed

  predicate BeforeAnswer(pc: WriterPc) { !pc.Putting? && !pc.Recording? && !pc.Releasing? }

  ghost predicate ProbesFirst(s: State) {
    !Settled(s.capability) ==> Unasked(s.ledger) && forall w :: 0 <= w < |s.writers| ==> BeforeAnswer(s.writers[w])
  }

  lemma StepKeepsProbesFirst(env: Env, s: State, e: Event)
    requires ProbesFirst(s) && Shapes(s.writers, s.capability) && Enabled(env, s, e)
    ensures ProbesFirst(Apply(env, s, e))
  {
    match e
    case Traverse(i, sawStop, check) => TraverseKeepsProbesFirst(env, s, i, sawStop, check);
    case Write(w, answer) => WriteKeepsProbesFirst(env, s, w, answer);
    case _ => DiscardFrame(s.ledger, s.write.queue);
  }

  lemma TraverseKeepsProbesFirst(env: Env, s: State, i: nat, sawStop: bool, check: CheckAnswer)
    requires ProbesFirst(s) && CanTraverse(env, s, i, sawStop, check)
    ensures ProbesFirst(TraverseStep(env, s, i, sawStop, check))
  {
    TraverseLearnsNothing(env, s, i, sawStop, check);
    TraverseFrame(env, s, i, sawStop, check);
    QueueAfterTraverse(env, s, i, sawStop, check);
    hide TraverseStep, CanTraverse;
  }

  lemma WriteKeepsProbesFirst(env: Env, s: State, w: nat, answer: WriteAnswer)
    requires ProbesFirst(s) && Shapes(s.writers, s.capability) && CanWrite(env, s, w, answer)
    ensures ProbesFirst(WriteStep(env, s, w, answer))
  {
    assert ShapeOf(s.writers[w], s.capability);
    WriteShiftsOne(env, s, w, answer);
    hide Unasked, SeekStep, PutStep, RecordStep, Shapes, Aligned;
    match s.writers[w] {
      case Seeking => SeekAsksNothing(env, s, w);
      case Publishing(jobs) => PublishSettles(env, s, w, jobs, answer);
      case Putting(_, _) =>
      case Recording(_, _, _) =>
      case Releasing(_) =>
      case Returned =>
      case _ => ServiceAsksNothing(env, s, w, answer);
    }
    hide PublishStep;
  }

  /** A batch of several jobs, or a single job as long as nothing is known, is a batch call. */
  lemma PublishSettles(env: Env, s: State, w: nat, jobs: seq<Job>, answer: WriteAnswer)
    requires w < |s.writers| && s.writers[w] == Publishing(jobs) && |jobs| >= 1
    ensures Settled(PublishStep(env, s, w, jobs, answer).capability)
  {
    hide LandAll, LandSome, Completions;
  }

  lemma ServiceAsksNothing(env: Env, s: State, w: nat, answer: WriteAnswer)
    requires CanWrite(env, s, w, answer) && InCheckpoint(s.writers[w]) == 1
    ensures var s' := WriteStep(env, s, w, answer);
      && w < |s'.writers| && BeforeAnswer(s'.writers[w]) && s'.capability == s.capability
      && (Unasked(s.ledger) ==> Unasked(s'.ledger))
  {
    DiscardFrame(s.ledger, s.write.queue);
    hide Discard, SeekStep, PublishStep, PutStep, RecordStep;
  }

  lemma SeekAsksNothing(env: Env, s: State, w: nat)
    requires w < |s.writers| && s.writers[w] == Seeking
    ensures var s' := SeekStep(env, s, w);
      s'.ledger == s.ledger && w < |s'.writers| && s'.writers == s.writers[w := s'.writers[w]] &&
        BeforeAnswer(s'.writers[w])
  {
  }

  lemma {:induction false} RunProbesFirst(env: Env, s: State, events: seq<Event>)
    requires Sound(env, s) && ProbesFirst(s) && IsRun(env, s, events)
    ensures ProbesFirst(RunEnd(env, s, events))
    decreases |events|
  {
    hide Sound, ProbesFirst, Apply, Enabled;
    if events != [] {
      SoundShapes(env, s);
      StepKeepsProbesFirst(env, s, events[0]);
      StepKeepsSound(env, s, events[0]);
      RunProbesFirst(env, Apply(env, s, events[0]), events[1..]);
    }
  }

  lemma SoundShapes(env: Env, s: State)
    requires Sound(env, s)
    ensures Shapes(s.writers, s.capability)
  {
  }

  /** In every run the capability is settled exactly when some batch call has been answered;
      for a store with fixed support it is then the truth; and as long as it is not settled
      nothing has been written and no write has been reported as failed. */
  lemma ProbeIsRight(env: Env, workerCount: nat, events: seq<Event>)
    requires WellConfigured(env) && workerCount >= 1 && IsRun(env, Initial(env, workerCount), events)
    ensures var s := RunEnd(env, Initial(env, workerCount), events);
      && (Settled(s.capability) <==> BatchAnswered(env, Initial(env, workerCount), events))
      && (FixedSupport(env.store).Some? && Settled(s.capability) ==> s.capability == Truth(env.store))
      && (!Settled(s.capability) ==> Unasked(s.ledger))
  {
    hide Sound, Unasked;
    var s0 := Initial(env, workerCount);
    InitialSound(env, workerCount);
    InitiallyUnasked(env, workerCount);
    hide Initial;
    RunSettles(env, s0, events);
    RunProbesFirst(env, s0, events);
  }

  lemma InitiallyUnasked(env: Env, workerCount: nat)
    ensures var s := Initial(env, workerCount); s.capability == WriteQueue.Unknown && ProbesFirst(s)
  {
  }
}
