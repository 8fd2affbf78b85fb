/** The queue of (requested root, block) pairs shared by the traversal workers, with
    its detection of the end of the traversal. */
module WorkQueue {
  import opened BlockGraph

  datatype Item = Item(root: BlockId, block: BlockId)

  datatype State = State(queue: seq<Item>, activeWorkers: nat, shutdown: bool)

  datatype Popped = Next(item: Item) | Finished | MustWait

  function Items(root: BlockId, ids: seq<BlockId>): seq<Item> {
    seq(|ids|, i requires 0 <= i < |ids| => Item(root, ids[i]))
  }

  function RootItems(roots: seq<BlockId>): seq<Item> {
    seq(|roots|, i requires 0 <= i < |roots| => Item(roots[i], roots[i]))
  }

  function Initial(roots: seq<BlockId>): State { State(RootItems(roots), 0, false) }

  function Pop(q: State, stop: bool): Popped {
    if q.shutdown || stop then Finished
    else if q.queue != [] then Next(q.queue[0])
    else if q.activeWorkers == 0 then Finished
    else MustWait
  }

  function AfterPop(q: State, stop: bool): State {
    match Pop(q, stop)
    case Next(_) => q.(queue := q.queue[1..], activeWorkers := q.activeWorkers + 1)
    case Finished => q.(shutdown := true)
    case MustWait => q
  }

  function EnqueueChildren(q: State, root: BlockId, ids: seq<BlockId>, stop: bool): State {
    if ids == [] || stop || q.shutdown then q else q.(queue := q.queue + Items(root, ids))
  }

  function FinishItem(q: State, stop: bool): State {
    var active := if q.activeWorkers > 0 then q.activeWorkers - 1 else 0;
    q.(activeWorkers := active, shutdown := q.shutdown || stop || (active == 0 && q.queue == []))
  }

  function RequestShutdown(q: State): State { q.(shutdown := true) }

  /** Unless a stop was requested, the queue shuts down only when no work is left and
      none can appear. */
  ghost predicate EndsWhenDone(q: State, stop: bool) {
    q.shutdown && !stop ==> q.queue == [] && q.activeWorkers == 0
  }

  /** `holders` counts the workers that hold an item. Termination detection is exact. */
  lemma StepsKeepEnd(q: State, stop: bool, holders: nat, root: BlockId, ids: seq<BlockId>)
    requires EndsWhenDone(q, stop) && q.activeWorkers == holders
    ensures EndsWhenDone(AfterPop(q, stop), stop)
    ensures holders > 0 ==> EndsWhenDone(FinishItem(q, stop), stop) && FinishItem(q, stop).activeWorkers == holders - 1
    ensures holders > 0 ==> forall seen: bool :: EndsWhenDone(EnqueueChildren(q, root, ids, seen), stop)
    ensures Pop(q, stop) == Finished && !stop <==> q.queue == [] && holders == 0 && !stop
  {
  }

  class ThreadedWorkQueue {
    var queue: seq<Item>
    var activeWorkers: nat
    var isShutdown: bool

    ghost function Model(): State
      reads this
    {
      State(queue, activeWorkers, isShutdown)
    }

    constructor (roots: seq<BlockId>)
      ensures Model() == Initial(roots)
    {
      queue, activeWorkers, isShutdown := RootItems(roots), 0, false;
    }

    /** One pass through the loop of `pop`; `MustWait` is the wait on the condition variable. */
    method TryPop(stopRequested: bool) returns (popped: Popped)
      modifies this
      ensures popped == Pop(old(Model()), stopRequested) && Model() == AfterPop(old(Model()), stopRequested)
    {
      if isShutdown || stopRequested {
        isShutdown := true;
        return Finished;
      }
      if queue != [] {
        popped := Next(queue[0]);
        queue := queue[1..];
        activeWorkers := activeWorkers + 1;
        return;
      }
      if activeWorkers == 0 {
        isShutdown := true;
        return Finished;
      }
      return MustWait;
    }

    method PushChildren(root: BlockId, childIds: seq<BlockId>, stopRequested: bool)
      modifies this
      ensures Model() == EnqueueChildren(old(Model()), root, childIds, stopRequested)
    {
      if childIds == [] || stopRequested { return; }
      if isShutdown { return; }
      ghost var before := queue;
      for i := 0 to |childIds|
        modifies this`queue
        invariant queue == before + Items(root, childIds[..i])
      {
        queue := queue + [Item(root, childIds[i])];
      }
      assert childIds[..|childIds|] == childIds;
    }

    method Finish(stopRequested: bool)
      modifies this
      ensures Model() == FinishItem(old(Model()), stopRequested)
    {
      activeWorkers := if activeWorkers > 0 then activeWorkers - 1 else 0;
      if stopRequested || (activeWorkers == 0 && queue == []) {
        isShutdown := true;
      }
    }

    method Shutdown()
      modifies this
      ensures Model() == RequestShutdown(old(Model()))
    {
      isShutdown := true;
    }
  }
}
