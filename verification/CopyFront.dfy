/** The traversal frontier of the multi-worker copy, and what a run without a stop never does. */
module CopyFront {
  import opened BlockGraph
  import opened Tallies
  import opened FailureTracker
  import opened Ledger
  import opened Frontier
  import opened CopyProtocol
  import opened CopyControl
  import opened CopyProgress
  import WorkQueue
  import WriteQueue

  function AwaitOf(pc: TraversalPc): set<Item> { if pc.Noting? then {pc.item} else {} }

  function VisitOf(pc: TraversalPc): set<BlockId> { if pc.Visiting? then {pc.item.block} else {} }

  function ExpandOf(pc: TraversalPc): set<BlockId> {
    if pc.Reading? || pc.Decoding? || pc.Spreading? then {pc.item.block} else {}
  }

  function QueuedItems(queue: seq<Item>): set<Item> { set item | item in queue }

  function FrontOf(queue: seq<Item>, workers: seq<TraversalPc>): Front {
    Front(QueuedItems(queue) + UnionOf(workers, AwaitOf), UnionOf(workers, VisitOf), UnionOf(workers, ExpandOf))
  }

  function FrontAt(s: State): Front { FrontOf(s.work.queue, s.workers) }

  ghost predicate HandGenuine(env: Env, log: FailureLog, pc: TraversalPc) {
    && (forall item :: item in ItemsIn(pc) ==> Genuine(env, item.root, item.block))
    && (pc.Visiting? ==> IsNoted(log, pc.item.block))
  }

  ghost predicate HandsGenuine(env: Env, log: FailureLog, workers: seq<TraversalPc>) {
    forall i :: 0 <= i < |workers| ==> HandGenuine(env, log, workers[i])
  }

  ghost predicate Frontal(env: Env, s: State) {
    && OnTrack(env, s.ledger, FrontAt(s))
    && HandsGenuine(env, s.ledger.log, s.workers)
    && (!s.stop ==> Covers(env, s.ledger, FrontAt(s)))
  }

  lemma InitialFrontal(env: Env, workerCount: nat)
    ensures Frontal(env, Initial(env, workerCount))
  {
    hide Reach;
    OpenedFront(env);
    var s := Initial(env, workerCount);
    assert FrontAt(s) == Front(set item | item in WorkQueue.RootItems(env.roots), {}, {});
  }

  // ------------------------------------------------------------- how the front moves

  lemma FrontMoves(queue: seq<Item>, workers: seq<TraversalPc>, i: nat, pc: TraversalPc)
    requires i < |workers|
    ensures var f, f' := FrontOf(queue, workers), FrontOf(queue, workers[i := pc]);
      && f'.awaited <= f.awaited + AwaitOf(pc) && f.awaited <= f'.awaited + AwaitOf(workers[i])
      && AwaitOf(workers[i]) <= f.awaited && AwaitOf(pc) <= f'.awaited
      && f'.visiting <= f.visiting + VisitOf(pc) && f.visiting <= f'.visiting + VisitOf(workers[i])
      && VisitOf(pc) <= f'.visiting
      && f.expanding <= f'.expanding + ExpandOf(workers[i]) && ExpandOf(pc) <= f'.expanding
  {
    UnionUpdate(workers, i, pc, AwaitOf);
    UnionUpdate(workers, i, pc, VisitOf);
    UnionUpdate(workers, i, pc, ExpandOf);
  }

  lemma HandsMove(env: Env, log: FailureLog, log': FailureLog, workers: seq<TraversalPc>, i: nat, pc: TraversalPc)
    requires HandsGenuine(env, log, workers) && i < |workers| && log.noted <= log'.noted && HandGenuine(env, log', pc)
    ensures HandsGenuine(env, log', workers[i := pc])
  {
    hide Genuine;
    forall j | 0 <= j < |workers| && j != i ensures HandGenuine(env, log', workers[j]) {
      assert HandGenuine(env, log, workers[j]);
      if workers[j].Visiting? {
        var root :| (root, workers[j].item.block) in log.noted;
        assert (root, workers[j].item.block) in log'.noted;
      }
    }
  }

  // ------------------------------------------------------------- steps of a worker

  lemma PopKeepsFrontal(env: Env, s: State, i: nat)
    requires Frontal(env, s) && i < |s.workers| && s.workers[i] == Idle
    ensures Frontal(env, PopStep(s, i))
  {
    hide OnTrack, Covers, Genuine;
    var s' := PopStep(s, i);
    if WorkQueue.Pop(s.work, s.stop).Next? {
      var item := s.work.queue[0];
      assert s.work.queue == [item] + s.work.queue[1..];
      FrontMoves(s.work.queue[1..], s.workers, i, Noting(item));
      assert FrontAt(s').awaited == FrontAt(s).awaited;
      QueuedIsGenuine(env, s, item);
      HandsMove(env, s.ledger.log, s.ledger.log, s.workers, i, Noting(item));
      SameFront(env, s, s', i, Noting(item));
    } else if WorkQueue.Pop(s.work, s.stop).Finished? {
      HandsMove(env, s.ledger.log, s.ledger.log, s.workers, i, Done);
      SameFront(env, s, s', i, Done);
    }
  }

  lemma QueuedIsGenuine(env: Env, s: State, item: Item)
    requires OnTrack(env, s.ledger, FrontAt(s)) && item in s.work.queue
    ensures Genuine(env, item.root, item.block)
  {
    hide Genuine;
    assert item in FrontAt(s).awaited;
  }

  /** The pending items stay the same and neither visiting nor expanding shrinks. */
  lemma SameFront(env: Env, s: State, s': State, i: nat, pc: TraversalPc)
    requires Frontal(env, s) && i < |s.workers| && s'.workers == s.workers[i := pc]
    requires FrontAt(s').awaited == FrontAt(s).awaited ||
      (s'.work.queue == s.work.queue && AwaitOf(pc) == AwaitOf(s.workers[i]) == {})
    requires VisitOf(s.workers[i]) == {} && ExpandOf(s.workers[i]) <= ExpandOf(pc)
    requires s'.ledger.visited == s.ledger.visited && s'.ledger.log.noted == s.ledger.log.noted && (s.stop ==> s'.stop)
    requires HandsGenuine(env, s'.ledger.log, s'.workers)
    ensures Frontal(env, s')
  {
    hide OnTrack, Covers, HandsGenuine;
    FrontMoves(s.work.queue, s.workers, i, pc);
    FrontMoves(s'.work.queue, s.workers, i, pc);
    QuietKeepsFront(env, s.ledger, FrontAt(s), s'.ledger, FrontAt(s'));
  }

  lemma NotingKeepsFrontal(env: Env, s: State, i: nat, item: Item)
    requires Frontal(env, s) && i < |s.workers| && s.workers[i] == Noting(item)
    ensures Frontal(env, Move(s.(ledger := NoteAt(s.ledger, item.root, item.block)), i, Visiting(item)))
  {
    hide OnTrack, Covers, Genuine;
    var s' := Move(s.(ledger := NoteAt(s.ledger, item.root, item.block)), i, Visiting(item));
    FrontMoves(s.work.queue, s.workers, i, Visiting(item));
    NoteKeepsOnTrack(env, s.ledger, FrontAt(s), FrontAt(s'), item);
    if !s.stop { NoteKeepsCovers(env, s.ledger, FrontAt(s), FrontAt(s'), item); }
    assert HandGenuine(env, s.ledger.log, s.workers[i]);
    assert (item.root, item.block) in s'.ledger.log.noted;
    HandsMove(env, s.ledger.log, s'.ledger.log, s.workers, i, Visiting(item));
  }

  lemma VisitingKeepsFrontal(env: Env, s: State, i: nat, item: Item)
    requires Frontal(env, s) && i < |s.workers| && s.workers[i] == Visiting(item)
    ensures Frontal(env, VisitStep(s, i, item))
  {
    hide OnTrack, Covers, Genuine;
    var s', b := VisitStep(s, i, item), item.block;
    var pc := s'.workers[i];
    assert s'.ledger == Visit(s.ledger, b) by {
      if b in s.ledger.visited { assert s.ledger.visited + {b} == s.ledger.visited; }
    }
    FrontMoves(s.work.queue, s.workers, i, pc);
    assert HandGenuine(env, s.ledger.log, s.workers[i]);
    VisitKeepsOnTrack(env, s.ledger, FrontAt(s), FrontAt(s'), b);
    if !s.stop { VisitKeepsCovers(env, s.ledger, FrontAt(s), FrontAt(s'), b); }
    HandsMove(env, s.ledger.log, s.ledger.log, s.workers, i, pc);
  }

  lemma ReadingKeepsFrontal(env: Env, s: State, i: nat, item: Item)
    requires Frontal(env, s) && i < |s.workers| && s.workers[i] == Reading(item)
    ensures Frontal(env, ReadStep(env, s, i, item))
  {
    hide OnTrack, Covers, Genuine;
    var s', b := ReadStep(env, s, i, item), item.block;
    var pc := s'.workers[i];
    assert HandGenuine(env, s.ledger.log, s.workers[i]);
    HandsMove(env, s.ledger.log, s'.ledger.log, s.workers, i, pc);
    FrontMoves(s.work.queue, s.workers, i, pc);
    if Readable(env.source, b) {
      SameFront(env, s, s', i, pc);
    } else {
      assert FrontAt(s').awaited == FrontAt(s).awaited;
      if !s.stop { BarrenKeepsCovers(env, s.ledger, FrontAt(s), s'.ledger, FrontAt(s'), b); }
      TrackFollows(env, s.ledger, FrontAt(s), s'.ledger, FrontAt(s'));
    }
  }

  lemma TrackFollows(env: Env, l: Ledger, f: Front, l': Ledger, f': Front)
    requires OnTrack(env, l, f) && l'.visited == l.visited && l'.log.noted == l.log.noted && f'.awaited <= f.awaited
    ensures OnTrack(env, l', f')
  {
    hide Genuine;
    forall b | b in l'.visited ensures IsNoted(l'.log, b) { assert IsNoted(l.log, b); }
  }

  /** While a worker holds an item the work queue is open, unless a stop was requested:
      so its children are queued. */
  lemma SpreadingKeepsFrontal(env: Env, s: State, i: nat, item: Item, sawStop: bool)
    requires Frontal(env, s) && WorkCtl(s.work, s.stop, s.workers) && i < |s.workers| && s.workers[i] == Spreading(item)
    requires sawStop ==> s.stop
    ensures Frontal(env, SpreadStep(env, s, i, item, sawStop))
  {
    hide OnTrack, Covers, Genuine;
    var s', b := SpreadStep(env, s, i, item, sawStop), item.block;
    var pc, ids := s'.workers[i], ChildrenOf(env.source, item.block);
    assert HandGenuine(env, s.ledger.log, s.workers[i]);
    HandsMove(env, s.ledger.log, s.ledger.log, s.workers, i, pc);
    FrontMoves(s.work.queue, s.workers, i, pc);
    FrontMoves(s'.work.queue, s.workers, i, pc);
    TallyHolds(s.workers, i, HoldsItem);
    if s'.work.queue == s.work.queue {
      TrackFollows(env, s.ledger, FrontAt(s), s'.ledger, FrontAt(s'));
      if !s.stop {
        assert ids == [];
        BarrenKeepsCovers(env, s.ledger, FrontAt(s), s'.ledger, FrontAt(s'), b);
      }
    } else {
      assert s'.work.queue == s.work.queue + WorkQueue.Items(item.root, ids);
      forall it | it in WorkQueue.Items(item.root, ids)
        ensures it in FrontAt(s').awaited
      {
        assert it in s'.work.queue;
      }
      SpreadKeepsOnTrack(env, s.ledger, FrontAt(s), FrontAt(s'), item.root, b);
      if !s.stop { SpreadKeepsCovers(env, s.ledger, FrontAt(s), s'.ledger, FrontAt(s'), item.root, b); }
    }
  }

  /** The steps after the children are queued, and decoding, leave the front as it is. */
  lemma LaterKeepsFrontal(env: Env, s: State, i: nat, sawStop: bool, check: CheckAnswer)
    requires Frontal(env, s) && CanTraverse(env, s, i, sawStop, check)
    requires !s.workers[i].Idle? && !s.workers[i].Noting? && !s.workers[i].Visiting? && !s.workers[i].Reading?
    requires !s.workers[i].Spreading?
    ensures Frontal(env, TraverseStep(env, s, i, sawStop, check))
  {
    hide OnTrack, Covers, Genuine, PopStep, VisitStep, ReadStep, SpreadStep, WriteQueue.Admit, CheckAllowed;
    var s' := TraverseStep(env, s, i, sawStop, check);
    LaterStepFrame(env, s, i, sawStop, check);
    hide TraverseStep;
    assert HandGenuine(env, s.ledger.log, s.workers[i]);
    HandsMove(env, s.ledger.log, s'.ledger.log, s.workers, i, s'.workers[i]);
    SameFront(env, s, s', i, s'.workers[i]);
  }

  lemma LaterStepFrame(env: Env, s: State, i: nat, sawStop: bool, check: CheckAnswer)
    requires CanTraverse(env, s, i, sawStop, check)
    requires !s.workers[i].Idle? && !s.workers[i].Noting? && !s.workers[i].Visiting? && !s.workers[i].Reading?
    requires !s.workers[i].Spreading?
    ensures var s' := TraverseStep(env, s, i, sawStop, check);
      && |s'.workers| == |s.workers| && s'.workers == s.workers[i := s'.workers[i]] && s'.work.queue == s.work.queue
      && s'.ledger.visited == s.ledger.visited && s'.ledger.log.noted == s.ledger.log.noted && s'.stop == s.stop
      && AwaitOf(s'.workers[i]) == {} && ItemsIn(s'.workers[i]) <= ItemsIn(s.workers[i]) && !s'.workers[i].Visiting?
      && ExpandOf(s.workers[i]) <= ExpandOf(s'.workers[i])
  {
  }

  lemma TraverseKeepsFrontal(env: Env, s: State, i: nat, sawStop: bool, check: CheckAnswer)
    requires Frontal(env, s) && WorkCtl(s.work, s.stop, s.workers) && CanTraverse(env, s, i, sawStop, check)
    ensures Frontal(env, TraverseStep(env, s, i, sawStop, check))
  {
    hide Frontal, WorkCtl, PopStep, VisitStep, ReadStep, SpreadStep, CheckStep, SubmitStep;
    match s.workers[i] {
      case Idle => PopKeepsFrontal(env, s, i);
      case Noting(item) => NotingKeepsFrontal(env, s, i, item);
      case Visiting(item) => VisitingKeepsFrontal(env, s, i, item);
      case Reading(item) => ReadingKeepsFrontal(env, s, i, item);
      case Spreading(item) => SpreadingKeepsFrontal(env, s, i, item, sawStop);
      case _ => LaterKeepsFrontal(env, s, i, sawStop, check);
    }
  }

  // ------------------------------------------------------------- all other steps

  /** Nothing but a traversal worker changes what the front is made of. */
  lemma OthersKeepFrontal(env: Env, s: State, s': State)
    requires Frontal(env, s) && s'.workers == s.workers && s'.work.queue == s.work.queue && (s.stop ==> s'.stop)
    requires s'.ledger.visited == s.ledger.visited && s'.ledger.log.noted == s.ledger.log.noted
    ensures Frontal(env, s')
  {
    hide OnTrack, Covers, Genuine;
    QuietKeepsFront(env, s.ledger, FrontAt(s), s'.ledger, FrontAt(s'));
    forall i | 0 <= i < |s.workers| ensures HandGenuine(env, s'.ledger.log, s.workers[i]) {
      assert HandGenuine(env, s.ledger.log, s.workers[i]);
    }
  }

  lemma WriteFrame(env: Env, s: State, w: nat, answer: WriteAnswer)
    requires CanWrite(env, s, w, answer)
    ensures var s' := WriteStep(env, s, w, answer);
      && s'.workers == s.workers && s'.work == s.work && (s.stop ==> s'.stop)
      && s'.ledger.visited == s.ledger.visited && s'.ledger.log.noted == s.ledger.log.noted
  {
    WriteShiftsOne(env, s, w, answer);
    match s.writers[w] {
      case Publishing(jobs) =>
        LandAllFrame(env, s.ledger, jobs);
        if answer.BatchFailed? { LandSomeFrame(env, s.ledger, jobs, answer.landed); }
      case FailingCheckpoint => DiscardFrame(s.ledger, s.write.queue);
      case _ =>
    }
  }

  lemma StepKeepsFrontal(env: Env, s: State, e: Event)
    requires Frontal(env, s) && Control(env, s) && Enabled(env, s, e)
    ensures Frontal(env, Apply(env, s, e))
  {
    hide Frontal, WorkCtl, WriteCtl, Shapes, EndCtl, CanTraverse, CanWrite, TraverseStep, WriteStep;
    match e
    case Traverse(i, sawStop, check) => TraverseKeepsFrontal(env, s, i, sawStop, check);
    case Write(w, answer) =>
      WriteFrame(env, s, w, answer);
      OthersKeepFrontal(env, s, Apply(env, s, e));
    case _ =>
      DiscardFrame(s.ledger, s.write.queue);
      OthersKeepFrontal(env, s, Apply(env, s, e));
  }

  /** When every worker has returned and nobody asked to stop, nothing is pending. */
  lemma FinalFront(env: Env, s: State)
    requires WorkCtl(s.work, s.stop, s.workers) && AllDone(s.workers) && !s.stop
    ensures FrontAt(s) == NoFront
  {
    assert s.workers[0] == Done;
  }
}
