/** Attribution of block failures to the requested roots that reach the block. */
module FailureTracker {
  import opened BlockGraph

  datatype Operation =
    | ReadSourceBlock
    | DecodeSourceBlock
    | CheckDestinationBlock
    | WriteDestinationBlock
    | CompactDestinationStore

  datatype Template = Template(operation: Operation, message: string)

  datatype Subject = Block(id: BlockId) | DestinationStore

  datatype CopyFailure = CopyFailure(root: BlockId, subject: Subject, template: Template)

  // ---------------------------------------------------------------- the log

  /** Everything the tracker has been told, without the order it was told in. */
  datatype FailureLog = FailureLog(
    noted: set<(BlockId, BlockId)>,
    children: Graph,
    recorded: multiset<(BlockId, Template)>,
    store: multiset<CopyFailure>)

  const EmptyLog := FailureLog({}, map[], multiset{}, multiset{})

  function Noted(log: FailureLog, root: BlockId, b: BlockId): FailureLog {
    log.(noted := log.noted + {(root, b)})
  }

  function Remembered(log: FailureLog, b: BlockId, ids: seq<BlockId>): FailureLog {
    log.(children := log.children[b := ids])
  }

  function Recorded(log: FailureLog, b: BlockId, t: Template): FailureLog {
    log.(recorded := log.recorded + multiset{(b, t)})
  }

  function StoreFailed(log: FailureLog, roots: seq<BlockId>, t: Template): FailureLog {
    log.(store := log.store + multiset(StoreFailures(roots, t)))
  }

  function StoreFailures(roots: seq<BlockId>, t: Template): seq<CopyFailure> {
    seq(|roots|, i requires 0 <= i < |roots| => CopyFailure(roots[i], DestinationStore, t))
  }

  /** `root` reaches `b` along remembered children from some block it was noted at. */
  ghost predicate Attributed(log: FailureLog, root: BlockId, b: BlockId) {
    exists start :: (root, start) in log.noted && Reach(log.children, start, b)
  }

  /** How often one failure belongs in the report: the join of the attribution
      relation with the recorded failures. */
  ghost function ExpectedCount(log: FailureLog, f: CopyFailure): nat {
    match f.subject
    case DestinationStore => log.store[f]
    case Block(b) => if Attributed(log, f.root, b) then log.recorded[(b, f.template)] else 0
  }

  ghost predicate Explains(log: FailureLog, failures: multiset<CopyFailure>) {
    forall f :: failures[f] == ExpectedCount(log, f)
  }

  ghost predicate FailedSubject(log: FailureLog, s: Subject) {
    match s
    case Block(b) => exists t :: (b, t) in log.recorded
    case DestinationStore => log.store != multiset{}
  }

  /** Two trackers told the same things report the same failures, whatever the order. */
  lemma SameLogSameReport(log: FailureLog, a: multiset<CopyFailure>, b: multiset<CopyFailure>)
    requires Explains(log, a) && Explains(log, b)
    ensures a == b
  {
    forall f ensures a[f] == b[f] {
      assert a[f] == ExpectedCount(log, f);
    }
  }

  /** The distinct subjects among the reported failures are exactly the failed
      ids the progress counter counts, for every subject, if and only if every failed
      block has a root. */
  lemma ReportedSubjects(log: FailureLog, failures: multiset<CopyFailure>)
    requires Explains(log, failures)
    requires forall f :: f in log.store ==> f.subject == DestinationStore
    ensures (forall s :: FailedSubject(log, s) <==> exists f :: f in failures && f.subject == s)
       <==> (forall b, t :: (b, t) in log.recorded ==> exists root :: Attributed(log, root, b))
  {
    if forall b, t :: (b, t) in log.recorded ==> exists root :: Attributed(log, root, b) {
      forall s ensures FailedSubject(log, s) <==> exists f :: f in failures && f.subject == s {
        SubjectReported(log, failures, s);
      }
    } else {
      var b, t :| (b, t) in log.recorded && !exists root :: Attributed(log, root, b);
      assert FailedSubject(log, Block(b));
      forall f | f in failures ensures f.subject != Block(b) {
        assert failures[f] == ExpectedCount(log, f);
      }
    }
  }

  lemma SubjectReported(log: FailureLog, failures: multiset<CopyFailure>, s: Subject)
    requires Explains(log, failures)
    requires forall f :: f in log.store ==> f.subject == DestinationStore
    requires forall b, t :: (b, t) in log.recorded ==> exists root :: Attributed(log, root, b)
    ensures FailedSubject(log, s) <==> exists f :: f in failures && f.subject == s
  {
    if FailedSubject(log, s) {
      match s
      case Block(b) =>
        var t :| (b, t) in log.recorded;
        var root :| Attributed(log, root, b);
        var f := CopyFailure(root, s, t);
        assert failures[f] == ExpectedCount(log, f);
      case DestinationStore =>
        var f :| f in log.store;
        assert failures[f] == ExpectedCount(log, f);
    }
    forall f | f in failures && f.subject == s ensures FailedSubject(log, s) {
      assert failures[f] == ExpectedCount(log, f);
    }
  }

  // ------------------------------------------------------------ event orders

  datatype TrackerEvent =
    | NoteEvent(root: BlockId, block: BlockId)
    | RememberEvent(block: BlockId, ids: seq<BlockId>)
    | RecordEvent(block: BlockId, template: Template)

  function Told(log: FailureLog, e: TrackerEvent): FailureLog {
    match e
    case NoteEvent(root, b) => Noted(log, root, b)
    case RememberEvent(b, ids) => Remembered(log, b, ids)
    case RecordEvent(b, t) => Recorded(log, b, t)
  }

  function ToldAll(log: FailureLog, events: seq<TrackerEvent>): FailureLog
    decreases |events|
  {
    if events == [] then log else Told(ToldAll(log, events[..|events| - 1]), events[|events| - 1])
  }

  /** A block is never remembered with two different lists of children, as the visited
      set of a copy guarantees. */
  ghost predicate RemembersConsistently(events: multiset<TrackerEvent>) {
    forall e, f :: e in events && f in events && e.RememberEvent? && f.RememberEvent? && e.block == f.block ==> e == f
  }

  lemma {:induction false} ToldFacts(events: seq<TrackerEvent>, root: BlockId, b: BlockId)
    ensures (root, b) in ToldAll(EmptyLog, events).noted <==> NoteEvent(root, b) in events
    ensures b in ToldAll(EmptyLog, events).children <==> exists ids :: RememberEvent(b, ids) in events
    ensures b in ToldAll(EmptyLog, events).children
      ==> RememberEvent(b, ToldAll(EmptyLog, events).children[b]) in events
    ensures ToldAll(EmptyLog, events).store == multiset{}
  {
    if events != [] {
      var n := |events| - 1;
      var last := events[n];
      assert events == events[..n] + [last];
      ToldFacts(events[..n], root, b);
    }
  }

  lemma {:induction false} ToldRecords(events: seq<TrackerEvent>, b: BlockId, t: Template)
    ensures ToldAll(EmptyLog, events).recorded[(b, t)] == multiset(events)[RecordEvent(b, t)]
  {
    if events != [] {
      var n := |events| - 1;
      assert events == events[..n] + [events[n]];
      ToldRecords(events[..n], b, t);
    }
  }

  /** Confluence of attribution: any reordering of the same events leaves the same
      log, hence the same multiset of reported failures. */
  lemma OrderIrrelevant(xs: seq<TrackerEvent>, ys: seq<TrackerEvent>)
    requires multiset(xs) == multiset(ys) && RemembersConsistently(multiset(xs))
    ensures ToldAll(EmptyLog, xs) == ToldAll(EmptyLog, ys)
  {
    hide ToldAll;
    var a, b := ToldAll(EmptyLog, xs), ToldAll(EmptyLog, ys);
    assert a.children == b.children by { ChildrenAgree(xs, ys); }
    assert a.noted == b.noted by { NotesAgree(xs, ys); }
    forall p ensures a.recorded[p] == b.recorded[p] {
      ToldRecords(xs, p.0, p.1);
      ToldRecords(ys, p.0, p.1);
    }
    assert a.recorded == b.recorded;
    ToldFacts(xs, BlockId(0), BlockId(0));
    ToldFacts(ys, BlockId(0), BlockId(0));
  }

  lemma SameEvents(xs: seq<TrackerEvent>, ys: seq<TrackerEvent>)
    requires multiset(xs) == multiset(ys)
    ensures forall e :: e in xs <==> e in ys
  {
    forall e ensures e in xs <==> e in ys {
      assert e in multiset(xs) <==> e in multiset(ys);
    }
  }

  lemma NotesAgree(xs: seq<TrackerEvent>, ys: seq<TrackerEvent>)
    requires multiset(xs) == multiset(ys)
    ensures ToldAll(EmptyLog, xs).noted == ToldAll(EmptyLog, ys).noted
  {
    hide ToldAll;
    SameEvents(xs, ys);
    forall p ensures p in ToldAll(EmptyLog, xs).noted <==> p in ToldAll(EmptyLog, ys).noted {
      ToldFacts(xs, p.0, p.1);
      ToldFacts(ys, p.0, p.1);
      assert p == (p.0, p.1);
    }
  }

  lemma ChildrenAgree(xs: seq<TrackerEvent>, ys: seq<TrackerEvent>)
    requires multiset(xs) == multiset(ys) && RemembersConsistently(multiset(xs))
    ensures ToldAll(EmptyLog, xs).children == ToldAll(EmptyLog, ys).children
  {
    hide ToldAll;
    SameEvents(xs, ys);
    var a, b := ToldAll(EmptyLog, xs).children, ToldAll(EmptyLog, ys).children;
    forall x ensures x in a <==> x in b {
      ToldFacts(xs, x, x);
      ToldFacts(ys, x, x);
    }
    forall x | x in a ensures a[x] == b[x] {
      ToldFacts(xs, x, x);
      ToldFacts(ys, x, x);
      assert RememberEvent(x, b[x]) in multiset(ys) && RememberEvent(x, a[x]) in multiset(xs);
    }
  }

  // --------------------------------------------------------------- the class

  function RootsOf(blockRoots: map<BlockId, set<BlockId>>, b: BlockId): set<BlockId> {
    if b in blockRoots then blockRoots[b] else {}
  }

  function TemplatesOf(templates: map<BlockId, seq<Template>>, b: BlockId): seq<Template> {
    if b in templates then templates[b] else []
  }

  /** The failure list is the join of the association with the templates. */
  ghost predicate Joined(blockRoots: map<BlockId, set<BlockId>>, templates: map<BlockId, seq<Template>>,
                         store: multiset<CopyFailure>, failures: multiset<CopyFailure>)
  {
    forall f :: failures[f] == JoinCount(blockRoots, templates, store, f)
  }

  ghost function JoinCount(blockRoots: map<BlockId, set<BlockId>>, templates: map<BlockId, seq<Template>>,
                           store: multiset<CopyFailure>, f: CopyFailure): nat
  {
    match f.subject
    case DestinationStore => store[f]
    case Block(b) =>
      if f.root in RootsOf(blockRoots, b) then multiset(TemplatesOf(templates, b))[f.template] else 0
  }

  /** Every association has a witness in the log. */
  ghost predicate Sound(log: FailureLog, blockRoots: map<BlockId, set<BlockId>>) {
    forall r, b :: r in RootsOf(blockRoots, b) ==> Attributed(log, r, b)
  }

  ghost predicate HoldsNoted(log: FailureLog, blockRoots: map<BlockId, set<BlockId>>) {
    forall r, b :: (r, b) in log.noted ==> r in RootsOf(blockRoots, b)
  }

  ghost predicate ClosedFor(r: BlockId, blockRoots: map<BlockId, set<BlockId>>, children: Graph, b: BlockId,
                            c: BlockId) {
    r in RootsOf(blockRoots, b) && c in ChildrenIn(children, b) ==> r in RootsOf(blockRoots, c)
  }

  ghost predicate Closed(blockRoots: map<BlockId, set<BlockId>>, children: Graph) {
    forall r, b, c :: ClosedFor(r, blockRoots, children, b, c)
  }

  /** A relation that holds every noted pair and is closed under the remembered children
      holds every attribution. */
  lemma ClosedHoldsAttributed(log: FailureLog, blockRoots: map<BlockId, set<BlockId>>, r: BlockId, b: BlockId)
    requires HoldsNoted(log, blockRoots) && Closed(blockRoots, log.children)
    requires Attributed(log, r, b)
    ensures r in RootsOf(blockRoots, b)
  {
    var start :| (r, start) in log.noted && Reach(log.children, start, b);
    var s := set x | x in blockRoots && r in blockRoots[x];
    forall x, c | x in s && c in ChildrenIn(log.children, x) ensures c in s {
      assert ClosedFor(r, blockRoots, log.children, x, c);
    }
    ClosedHoldsReach(log.children, s, start, b);
  }

  /** `block_roots` is exactly the attribution relation, and so the least relation that
      holds every noted pair and is closed under the remembered children. */
  lemma ClosedIsLeast(log: FailureLog, blockRoots: map<BlockId, set<BlockId>>, other: map<BlockId, set<BlockId>>,
                      r: BlockId, b: BlockId)
    requires Associates(log, blockRoots, log.children)
    ensures r in RootsOf(blockRoots, b) <==> Attributed(log, r, b)
    ensures HoldsNoted(log, other) && Closed(other, log.children) && r in RootsOf(blockRoots, b) ==>
      r in RootsOf(other, b)
  {
    hide Closed, HoldsNoted;
    if Attributed(log, r, b) {
      ClosedHoldsAttributed(log, blockRoots, r, b);
      if HoldsNoted(log, other) && Closed(other, log.children) { ClosedHoldsAttributed(log, other, r, b); }
    }
  }

  /** `r1` is `r0` with `root` added at blocks reachable from `block`; an edge the root
      does not cross starts at a block that had it before, or leads into `queue`. */
  ghost predicate Propagating(root: BlockId, block: BlockId, children: Graph, r0: map<BlockId, set<BlockId>>,
                              r1: map<BlockId, set<BlockId>>, queue: seq<BlockId>)
  {
    && (root in RootsOf(r1, block) || block in queue)
    && (forall b :: RootsOf(r0, b) <= RootsOf(r1, b) <= RootsOf(r0, b) + {root})
    && (forall b :: root in RootsOf(r1, b) ==> root in RootsOf(r0, b) || Reach(children, block, b))
    && (forall b :: b in queue ==> Reach(children, block, b))
    && (forall b, c :: !ClosedFor(root, r1, children, b, c) ==> root in RootsOf(r0, b) || c in queue)
  }

  lemma StartsPropagating(root: BlockId, block: BlockId, children: Graph, r0: map<BlockId, set<BlockId>>)
    ensures Propagating(root, block, children, r0, r0, [block])
  {
    ReachSelf(children, block);
  }

  lemma SkipsRooted(root: BlockId, block: BlockId, children: Graph, r0: map<BlockId, set<BlockId>>,
                    r1: map<BlockId, set<BlockId>>, queue: seq<BlockId>)
    requires Propagating(root, block, children, r0, r1, queue) && queue != []
    requires root in RootsOf(r1, queue[0])
    ensures Propagating(root, block, children, r0, r1[queue[0] := RootsOf(r1, queue[0])], queue[1..])
  {
    var r2 := r1[queue[0] := RootsOf(r1, queue[0])];
    assert forall b :: RootsOf(r2, b) == RootsOf(r1, b);
    assert forall b :: b in queue ==> b == queue[0] || b in queue[1..];
    forall b, c | !ClosedFor(root, r2, children, b, c) ensures root in RootsOf(r0, b) || c in queue[1..] {
      assert !ClosedFor(root, r1, children, b, c);
    }
  }

  lemma ExpandsUnrooted(root: BlockId, block: BlockId, children: Graph, r0: map<BlockId, set<BlockId>>,
                        r1: map<BlockId, set<BlockId>>, queue: seq<BlockId>)
    requires Propagating(root, block, children, r0, r1, queue) && queue != []
    requires root !in RootsOf(r1, queue[0])
    ensures Propagating(root, block, children, r0,
      r1[queue[0] := RootsOf(r1, queue[0]) + {root}], queue[1..] + ChildrenIn(children, queue[0]))
  {
    var current := queue[0];
    var r2 := r1[current := RootsOf(r1, current) + {root}];
    var next := queue[1..] + ChildrenIn(children, current);
    assert forall b :: RootsOf(r2, b) == if b == current then RootsOf(r1, b) + {root} else RootsOf(r1, b);
    assert forall b :: b in queue ==> b == current || b in queue[1..];
    forall b | b in next ensures Reach(children, block, b) {
      if b in ChildrenIn(children, current) { ReachStep(children, block, current, b); }
    }
    forall b, c | !ClosedFor(root, r2, children, b, c) ensures root in RootsOf(r0, b) || c in next {
      if b != current {
        assert !ClosedFor(root, r1, children, b, c);
      }
    }
  }

  lemma JoinedWithDefault(r1: map<BlockId, set<BlockId>>, templates: map<BlockId, seq<Template>>,
                          store: multiset<CopyFailure>, failures: multiset<CopyFailure>, b: BlockId)
    requires Joined(r1, templates, store, failures)
    ensures Joined(r1[b := RootsOf(r1, b)], templates, store, failures)
  {
    forall f ensures failures[f] == JoinCount(r1[b := RootsOf(r1, b)], templates, store, f) {
      assert failures[f] == JoinCount(r1, templates, store, f);
    }
  }

  /** Giving a block one more root adds one copy of each of its templates to the join. */
  lemma JoinedWithRoot(r1: map<BlockId, set<BlockId>>, templates: map<BlockId, seq<Template>>,
                       store: multiset<CopyFailure>, before: multiset<CopyFailure>, after: multiset<CopyFailure>,
                       root: BlockId, b: BlockId)
    requires Joined(r1, templates, store, before) && root !in RootsOf(r1, b)
    requires forall f :: after[f] == before[f] + PushedCount(templates, root, b, f)
    ensures Joined(r1[b := RootsOf(r1, b) + {root}], templates, store, after)
  {
    var r2 := r1[b := RootsOf(r1, b) + {root}];
    forall f ensures after[f] == JoinCount(r2, templates, store, f) {
      assert before[f] == JoinCount(r1, templates, store, f);
    }
  }

  function PushedCount(templates: map<BlockId, seq<Template>>, root: BlockId, b: BlockId, f: CopyFailure): nat {
    if f.root == root && f.subject == Block(b) then multiset(TemplatesOf(templates, b))[f.template] else 0
  }

  lemma AttributedStep(log: FailureLog, root: BlockId, b: BlockId, c: BlockId)
    requires Attributed(log, root, b) && Reach(log.children, b, c)
    ensures Attributed(log, root, c)
  {
    var start :| (root, start) in log.noted && Reach(log.children, start, b);
    ReachTransitive(log.children, start, b, c);
  }

  lemma AttributedMonotone(log: FailureLog, more: FailureLog, root: BlockId, b: BlockId)
    requires Attributed(log, root, b) && log.noted <= more.noted
    requires forall x, y :: y in ChildrenIn(log.children, x) ==> y in ChildrenIn(more.children, x)
    ensures Attributed(more, root, b)
  {
    var start :| (root, start) in log.noted && Reach(log.children, start, b);
    ReachMonotone(log.children, more.children, start, b);
  }

  /** While the roots of a freshly decoded block are pushed to its children, only edges
      out of that block may still be open: for roots not yet started, or for the current
      root towards children from index `k` on. With `exact`, nothing is associated that
      should not be. */
  ghost predicate CatchingUp(log: FailureLog, blockRoots: map<BlockId, set<BlockId>>, b: BlockId, rest: set<BlockId>,
                             current: set<BlockId>, k: nat, exact: bool)
    requires k <= |ChildrenIn(log.children, b)|
  {
    && (exact ==> Sound(log, blockRoots)) && HoldsNoted(log, blockRoots)
    && rest <= RootsOf(blockRoots, b) && rest !! current
    && forall r, x, c :: !ClosedFor(r, blockRoots, log.children, x, c)
        ==> x == b && (r in rest || (r in current && c in ChildrenIn(log.children, b)[k..]))
  }

  /** The block was not remembered before, or all its children were among these. */
  predicate KeepsChildren(children: Graph, b: BlockId, ids: seq<BlockId>) {
    forall c :: c in ChildrenIn(children, b) ==> c in ids
  }

  lemma CatchesUpOneChild(log: FailureLog, r1: map<BlockId, set<BlockId>>, r2: map<BlockId, set<BlockId>>, b: BlockId,
                          rest: set<BlockId>, root: BlockId, k: nat, exact: bool)
    requires k < |ChildrenIn(log.children, b)|
    requires CatchingUp(log, r1, b, rest, {root}, k, exact) && root in RootsOf(r1, b)
    requires Propagating(root, ChildrenIn(log.children, b)[k], log.children, r1, r2, [])
    ensures CatchingUp(log, r2, b, rest, {root}, k + 1, exact) && root in RootsOf(r2, b)
  {
    hide Attributed, Reach;
    var ids := ChildrenIn(log.children, b);
    forall r, x | exact && r in RootsOf(r2, x) ensures Attributed(log, r, x) {
      if r !in RootsOf(r1, x) {
        ReachSelf(log.children, b);
        ReachStep(log.children, b, b, ids[k]);
        AttributedStep(log, root, b, ids[k]);
        AttributedStep(log, root, ids[k], x);
      }
    }
    forall r, x, c | !ClosedFor(r, r2, log.children, x, c)
      ensures x == b && (r in rest || (r == root && c in ids[k + 1..]))
    {
      assert !ClosedFor(r, r1, log.children, x, c);
      assert ids[k..] == [ids[k]] + ids[k + 1..];
    }
  }

  lemma FinishesCatchingUp(log: FailureLog, blockRoots: map<BlockId, set<BlockId>>, b: BlockId, current: set<BlockId>,
                           exact: bool)
    requires CatchingUp(log, blockRoots, b, {}, current, |ChildrenIn(log.children, b)|, exact)
    ensures HoldsNoted(log, blockRoots) && Closed(blockRoots, log.children) && (exact ==> Sound(log, blockRoots))
  {
  }

  /** Decoding a block first opens only the edges out of that block, and takes none back
      unless it was remembered before with other children. */
  lemma StartsCatchingUp(log: FailureLog, blockRoots: map<BlockId, set<BlockId>>, b: BlockId, ids: seq<BlockId>)
    requires Sound(log, blockRoots) && HoldsNoted(log, blockRoots) && Closed(blockRoots, log.children)
    ensures CatchingUp(Remembered(log, b, ids), blockRoots, b, RootsOf(blockRoots, b), {}, |ids|,
        KeepsChildren(log.children, b, ids))
  {
    hide Attributed, Reach;
    var more := Remembered(log, b, ids);
    forall r, x | KeepsChildren(log.children, b, ids) && r in RootsOf(blockRoots, x) ensures Attributed(more, r, x) {
      AttributedMonotone(log, more, r, x);
    }
    forall r, x, c | !ClosedFor(r, blockRoots, more.children, x, c) ensures x == b && r in RootsOf(blockRoots, b) {
      assert ClosedFor(r, blockRoots, log.children, x, c);
    }
  }

  lemma NotedIsSound(log: FailureLog, r1: map<BlockId, set<BlockId>>, r2: map<BlockId, set<BlockId>>, root: BlockId,
                     b: BlockId)
    requires Sound(log, r1) && HoldsNoted(log, r1)
    requires Propagating(root, b, log.children, r1, r2, [])
    ensures Sound(Noted(log, root, b), r2) && HoldsNoted(Noted(log, root, b), r2)
  {
    hide Reach, ClosedFor;
    var more := Noted(log, root, b);
    forall r, x | r in RootsOf(r2, x) ensures Attributed(more, r, x) {
      if r in RootsOf(r1, x) {
        AttributedMonotone(log, more, r, x);
      } else {
        assert (root, b) in more.noted && Reach(more.children, b, x);
      }
    }
  }

  lemma NotedIsClosed(children: Graph, r1: map<BlockId, set<BlockId>>, r2: map<BlockId, set<BlockId>>, root: BlockId,
                      b: BlockId)
    requires Closed(r1, children) && Propagating(root, b, children, r1, r2, [])
    ensures Closed(r2, children)
  {
    hide Reach;
    forall r, x, c ensures ClosedFor(r, r2, children, x, c) {
      assert ClosedFor(r, r1, children, x, c);
    }
  }

  /** Noting a root and propagating it keeps the association closed and least. */
  lemma NotedIsValid(log: FailureLog, r1: map<BlockId, set<BlockId>>, r2: map<BlockId, set<BlockId>>, root: BlockId,
                     b: BlockId)
    requires Sound(log, r1) && HoldsNoted(log, r1) && Closed(r1, log.children)
    requires Propagating(root, b, log.children, r1, r2, [])
    ensures Sound(Noted(log, root, b), r2) && HoldsNoted(Noted(log, root, b), r2) && Closed(r2, log.children)
  {
    hide Sound, HoldsNoted, Closed, Propagating;
    NotedIsSound(log, r1, r2, root, b);
    NotedIsClosed(log.children, r1, r2, root, b);
  }

  /** A store failure names each requested root once. */
  lemma {:induction false} FailureOfEachRoot(roots: seq<BlockId>, t: Template, f: CopyFailure)
    ensures multiset(StoreFailures(roots, t))[f]
      == if f.subject == DestinationStore && f.template == t then multiset(roots)[f.root] else 0
  {
    if roots == [] {
      assert StoreFailures(roots, t) == [];
    } else {
      var rest := roots[..|roots| - 1];
      FailureOfEachRoot(rest, t, f);
      assert roots == rest + [roots[|roots| - 1]];
      assert StoreFailures(roots, t)
        == StoreFailures(rest, t) + [CopyFailure(roots[|roots| - 1], DestinationStore, t)];
    }
  }

  lemma JoinedWithStoreFailures(blockRoots: map<BlockId, set<BlockId>>, templates: map<BlockId, seq<Template>>,
                                store: multiset<CopyFailure>, failures: multiset<CopyFailure>, roots: seq<BlockId>,
                                t: Template)
    requires Joined(blockRoots, templates, store, failures)
    ensures var pushed := multiset(StoreFailures(roots, t));
      Joined(blockRoots, templates, store + pushed, failures + pushed)
  {
    var pushed := StoreFailures(roots, t);
    forall f ensures (failures + multiset(pushed))[f] == JoinCount(blockRoots, templates, store + multiset(pushed), f) {
      assert failures[f] == JoinCount(blockRoots, templates, store, f);
      if f.subject.Block? { assert f !in pushed; }
    }
  }

  /** Recording a failure does not touch the association. */
  lemma SameAttribution(log: FailureLog, more: FailureLog, blockRoots: map<BlockId, set<BlockId>>)
    requires log.noted == more.noted && log.children == more.children
    requires Sound(log, blockRoots) && HoldsNoted(log, blockRoots)
    ensures Sound(more, blockRoots) && HoldsNoted(more, blockRoots)
  {
    hide Reach;
    forall r, b | r in RootsOf(blockRoots, b) ensures Attributed(more, r, b) {
      assert Attributed(log, r, b);
    }
  }

  /** A new template of `b` calls for one failure per root of `b`. */
  lemma JoinedWithTemplate(blockRoots: map<BlockId, set<BlockId>>, templates: map<BlockId, seq<Template>>,
                           store: multiset<CopyFailure>, before: multiset<CopyFailure>, after: multiset<CopyFailure>,
                           b: BlockId, t: Template)
    requires Joined(blockRoots, templates, store, before)
    requires forall f :: after[f] == before[f] + RecordedCount(RootsOf(blockRoots, b), b, t, f)
    ensures Joined(blockRoots, templates[b := TemplatesOf(templates, b) + [t]], store, after)
  {
    var more := templates[b := TemplatesOf(templates, b) + [t]];
    forall f ensures after[f] == JoinCount(blockRoots, more, store, f) {
      assert before[f] == JoinCount(blockRoots, templates, store, f);
    }
  }

  function RecordedCount(roots: set<BlockId>, b: BlockId, t: Template, f: CopyFailure): nat {
    if f.subject == Block(b) && f.template == t && f.root in roots then 1 else 0
  }

  /** The association is the least relation the log calls for. */
  ghost predicate Associates(log: FailureLog, blockRoots: map<BlockId, set<BlockId>>, children: Graph) {
    children == log.children && Sound(log, blockRoots) && HoldsNoted(log, blockRoots) && Closed(blockRoots, children)
  }

  ghost predicate Filed(log: FailureLog, templates: map<BlockId, seq<Template>>) {
    forall b, t :: multiset(TemplatesOf(templates, b))[t] == log.recorded[(b, t)]
  }

  ghost predicate CountsFailedIds(log: FailureLog, failedIds: set<Subject>, count: nat) {
    count == |failedIds| && forall s :: s in failedIds <==> FailedSubject(log, s)
  }

  lemma AppendedCounts(ts: seq<Template>, t: Template)
    ensures forall u :: multiset(ts + [t])[u] == multiset(ts)[u] + if u == t then 1 else 0
  {
  }

  lemma RecordedCounts(log: FailureLog, b: BlockId, t: Template, x: BlockId, u: Template)
    ensures Recorded(log, b, t).recorded[(x, u)] == log.recorded[(x, u)] + if x == b && u == t then 1 else 0
  {
  }

  lemma FiledOneMore(log: FailureLog, templates: map<BlockId, seq<Template>>, b: BlockId, t: Template)
    requires Filed(log, templates)
    ensures Filed(Recorded(log, b, t), templates[b := TemplatesOf(templates, b) + [t]])
  {
    var more := templates[b := TemplatesOf(templates, b) + [t]];
    AppendedCounts(TemplatesOf(templates, b), t);
    assert forall x :: TemplatesOf(more, x) == if x == b then TemplatesOf(templates, b) + [t]
      else TemplatesOf(templates, x);
    hide TemplatesOf;
    forall x, u ensures multiset(TemplatesOf(more, x))[u] == Recorded(log, b, t).recorded[(x, u)] {
      RecordedCounts(log, b, t, x, u);
      hide Recorded;
      assert multiset(TemplatesOf(templates, x))[u] == log.recorded[(x, u)];
    }
  }

  lemma CountsOneMore(log: FailureLog, more: FailureLog, failedIds: set<Subject>, count: nat, s: Subject)
    requires CountsFailedIds(log, failedIds, count) && log.recorded <= more.recorded && log.store <= more.store
    requires FailedSubject(more, s)
    requires s.Block? ==> log.store == more.store
    requires s.Block? ==> forall b, t :: (b, t) in more.recorded ==> (b, t) in log.recorded || b == s.id
    requires s.DestinationStore? ==> log.recorded == more.recorded
    ensures CountsFailedIds(more, failedIds + {s}, if s in failedIds then count else count + 1)
  {
    forall x ensures x in failedIds + {s} <==> FailedSubject(more, x) {
      assert x in failedIds <==> FailedSubject(log, x);
      if x.Block? && FailedSubject(log, x) {
        var t :| (x.id, t) in log.recorded;
        assert (x.id, t) in more.recorded;
      }
    }
    if s in failedIds { assert failedIds + {s} == failedIds; }
  }

  /** The counter counts a failure of the store that is reported, or was before. */
  lemma CountsStoreFailure(log: FailureLog, failedIds: set<Subject>, count: nat, roots: seq<BlockId>, t: Template)
    requires CountsFailedIds(log, failedIds, count)
    ensures var counted := if DestinationStore in failedIds then count else count + 1;
      var fits := CountsFailedIds(StoreFailed(log, roots, t), failedIds + {DestinationStore}, counted);
      fits <==> roots != [] || DestinationStore in failedIds
  {
    var more, pushed := StoreFailed(log, roots, t), StoreFailures(roots, t);
    if roots != [] {
      assert pushed[0] in multiset(pushed);
      CountsOneMore(log, more, failedIds, count, DestinationStore);
    } else {
      assert more.store == log.store;
      if DestinationStore in failedIds {
        CountsOneMore(log, more, failedIds, count, DestinationStore);
      } else {
        assert !FailedSubject(more, DestinationStore);
      }
    }
  }

  lemma FiledAlike(log: FailureLog, more: FailureLog, templates: map<BlockId, seq<Template>>)
    requires Filed(log, templates) && log.recorded == more.recorded
    ensures Filed(more, templates)
  {
  }

  lemma FiledElsewhere(log: FailureLog, more: FailureLog, templates: map<BlockId, seq<Template>>,
                       failedIds: set<Subject>, count: nat)
    requires Filed(log, templates) && CountsFailedIds(log, failedIds, count)
    requires log.recorded == more.recorded && log.store == more.store
    ensures Filed(more, templates) && CountsFailedIds(more, failedIds, count)
  {
  }

  lemma StartsNextRoot(log: FailureLog, blockRoots: map<BlockId, set<BlockId>>, b: BlockId, rest: set<BlockId>,
                       current: set<BlockId>, root: BlockId, exact: bool)
    requires CatchingUp(log, blockRoots, b, rest, current, |ChildrenIn(log.children, b)|, exact) && root in rest
    ensures CatchingUp(log, blockRoots, b, rest - {root}, {root}, 0, exact) && root in RootsOf(blockRoots, b)
  {
    hide Sound, HoldsNoted;
  }

  class CopyFailureTracker {
    var blockRoots: map<BlockId, set<BlockId>>
    var discoveredChildren: Graph
    var failureTemplates: map<BlockId, seq<Template>>
    var failedIds: set<Subject>
    var failures: seq<CopyFailure>
    var progressFailedCount: nat
    ghost var log: FailureLog

    ghost predicate Valid()
      reads this
    {
      && Associates(log, blockRoots, discoveredChildren)
      && Joined(blockRoots, failureTemplates, log.store, multiset(failures))
      && Filed(log, failureTemplates)
      && CountsFailedIds(log, failedIds, progressFailedCount)
    }

    /** Nothing that the log calls for is missing from the report. */
    ghost predicate Exhaustive()
      reads this
    {
      && discoveredChildren == log.children && HoldsNoted(log, blockRoots) && Closed(blockRoots, log.children)
      && Joined(blockRoots, failureTemplates, log.store, multiset(failures))
      && Filed(log, failureTemplates)
      && CountsFailedIds(log, failedIds, progressFailedCount)
    }

    constructor ()
      ensures Valid() && log == EmptyLog && failures == []
    {
      blockRoots, discoveredChildren, failureTemplates := map[], map[], map[];
      failedIds, failures, progressFailedCount := {}, [], 0;
      log := EmptyLog;
    }

    /** What a valid tracker reports is what its log calls for, and nothing else. */
    lemma ReportIsExplained()
      requires Valid()
      ensures Explains(log, multiset(failures))
    {
      forall f ensures multiset(failures)[f] == ExpectedCount(log, f) {
        if f.subject.Block? && Attributed(log, f.root, f.subject.id) {
          ClosedHoldsAttributed(log, blockRoots, f.root, f.subject.id);
        }
      }
    }

    lemma CounterIsOfFailedIds()
      requires Valid()
      ensures progressFailedCount == |failedIds| && forall s :: s in failedIds <==> FailedSubject(log, s)
    {
    }

    /** One copy of each template of `b` is pushed for `root`. */
    method PushTemplates(root: BlockId, b: BlockId)
      modifies this`failures
      ensures forall f ::
        multiset(failures)[f] == old(multiset(failures)[f]) + PushedCount(failureTemplates, root, b, f)
    {
      var templates := TemplatesOf(failureTemplates, b);
      ghost var before := multiset(failures);
      for i := 0 to |templates|
        invariant forall f :: multiset(failures)[f] == before[f] + PushedCount(map[b := templates[..i]], root, b, f)
      {
        assert templates[..i + 1] == templates[..i] + [templates[i]];
        failures := failures + [CopyFailure(root, Block(b), templates[i])];
      }
      assert templates[..|templates|] == templates;
    }

    /** Breadth-first propagation of one root over the remembered subgraph. It terminates
        on cyclic graphs because a block that already has the root is not expanded again. */
    method AssociateRootWithKnownSubgraph(root: BlockId, block: BlockId)
      requires Joined(blockRoots, failureTemplates, log.store, multiset(failures))
      modifies this`blockRoots, this`failures
      ensures Joined(blockRoots, failureTemplates, log.store, multiset(failures))
      ensures Propagating(root, block, discoveredChildren, old(blockRoots), blockRoots, [])
    {
      hide Propagating, Joined;
      var queue := [block];
      ghost var all := {block} + set b, c | b in discoveredChildren && c in discoveredChildren[b] :: c;
      ghost var rooted := {};
      StartsPropagating(root, block, discoveredChildren, blockRoots);
      while queue != []
        invariant Joined(blockRoots, failureTemplates, log.store, multiset(failures))
        invariant Propagating(root, block, discoveredChildren, old(blockRoots), blockRoots, queue)
        invariant forall b :: b in queue ==> b in all
        invariant rooted <= all && forall b :: b in rooted ==> root in RootsOf(blockRoots, b)
        decreases all - rooted, |queue|
      {
        var current := queue[0];
        var associated := RootsOf(blockRoots, current);
        if root in associated {
          SkipsRooted(root, block, discoveredChildren, old(blockRoots), blockRoots, queue);
          JoinedWithDefault(blockRoots, failureTemplates, log.store, multiset(failures), current);
          blockRoots := blockRoots[current := associated];
          queue := queue[1..];
          continue;
        }
        ghost var before := multiset(failures);
        PushTemplates(root, current);
        JoinedWithRoot(blockRoots, failureTemplates, log.store, before, multiset(failures), root, current);
        ExpandsUnrooted(root, block, discoveredChildren, old(blockRoots), blockRoots, queue);
        blockRoots := blockRoots[current := associated + {root}];
        rooted := rooted + {current};
        queue := queue[1..] + ChildrenIn(discoveredChildren, current);
      }
    }

    method NoteBlockRoot(root: BlockId, block: BlockId)
      requires Valid()
      modifies this
      ensures Valid() && log == Noted(old(log), root, block)
    {
      hide Joined, Propagating, Filed, CountsFailedIds, Sound, HoldsNoted, Closed;
      AssociateRootWithKnownSubgraph(root, block);
      NotedIsValid(log, old(blockRoots), blockRoots, root, block);
      FiledElsewhere(log, Noted(log, root, block), failureTemplates, failedIds, progressFailedCount);
      log := Noted(log, root, block);
    }

    /** The block's roots are pushed to every child. A copy remembers a block once; if it
        were remembered again without some earlier child, that child would keep the roots it
        got through the block, but still nothing would be missing. */
    method RememberChildren(block: BlockId, childIds: seq<BlockId>)
      requires Valid()
      modifies this
      ensures log == Remembered(old(log), block, childIds) && Exhaustive()
      ensures old(KeepsChildren(discoveredChildren, block, childIds)) ==> Valid()
    {
      hide Joined, Propagating, CatchingUp, Filed, CountsFailedIds, Sound, HoldsNoted, Closed, KeepsChildren;
      ghost var exact := KeepsChildren(discoveredChildren, block, childIds);
      StartsCatchingUp(log, blockRoots, block, childIds);
      FiledElsewhere(log, Remembered(log, block, childIds), failureTemplates, failedIds, progressFailedCount);
      discoveredChildren := discoveredChildren[block := childIds];
      log := Remembered(log, block, childIds);
      PushRootsToChildren(RootsOf(blockRoots, block), block, childIds, exact);
    }

    method PushRootsToChildren(rootIds: set<BlockId>, block: BlockId, childIds: seq<BlockId>, ghost exact: bool)
      requires discoveredChildren == log.children && block in log.children && log.children[block] == childIds
      requires Joined(blockRoots, failureTemplates, log.store, multiset(failures))
      requires CatchingUp(log, blockRoots, block, rootIds, {}, |childIds|, exact)
      modifies this`blockRoots, this`failures
      ensures Joined(blockRoots, failureTemplates, log.store, multiset(failures))
      ensures HoldsNoted(log, blockRoots) && Closed(blockRoots, log.children) && (exact ==> Sound(log, blockRoots))
    {
      hide Joined, Propagating, CatchingUp, Sound, HoldsNoted, Closed;
      var rest := rootIds;
      ghost var current := {};
      while rest != {}
        invariant Joined(blockRoots, failureTemplates, log.store, multiset(failures))
        invariant CatchingUp(log, blockRoots, block, rest, current, |childIds|, exact)
      {
        var rootId :| rootId in rest;
        StartsNextRoot(log, blockRoots, block, rest, current, rootId, exact);
        rest := rest - {rootId};
        current := {rootId};
        for k := 0 to |childIds|
          invariant Joined(blockRoots, failureTemplates, log.store, multiset(failures))
          invariant CatchingUp(log, blockRoots, block, rest, {rootId}, k, exact) && rootId in RootsOf(blockRoots, block)
        {
          ghost var before := blockRoots;
          AssociateRootWithKnownSubgraph(rootId, childIds[k]);
          CatchesUpOneChild(log, before, blockRoots, block, rest, rootId, k, exact);
        }
      }
      FinishesCatchingUp(log, blockRoots, block, current, exact);
    }

    method NoteFailedId(s: Subject)
      modifies this`failedIds, this`progressFailedCount
      ensures failedIds == old(failedIds) + {s}
      ensures progressFailedCount == if s in old(failedIds) then old(progressFailedCount)
        else old(progressFailedCount) + 1
    {
      if s !in failedIds {
        failedIds := failedIds + {s};
        progressFailedCount := progressFailedCount + 1;
      }
    }

    method PushForRoots(rootIds: set<BlockId>, block: BlockId, t: Template)
      modifies this`failures
      ensures forall f :: multiset(failures)[f] == old(multiset(failures)[f]) + RecordedCount(rootIds, block, t, f)
    {
      var rest := rootIds;
      ghost var before := multiset(failures);
      while rest != {}
        invariant rest <= rootIds
        invariant forall f :: multiset(failures)[f] == before[f] + RecordedCount(rootIds - rest, block, t, f)
      {
        var rootId :| rootId in rest;
        rest := rest - {rootId};
        failures := failures + [CopyFailure(rootId, Block(block), t)];
      }
      assert rootIds - rest == rootIds;
    }

    method Record(block: BlockId, t: Template)
      requires Valid()
      modifies this
      ensures Valid() && log == Recorded(old(log), block, t)
    {
      hide Joined, Filed, CountsFailedIds, Sound, HoldsNoted, Closed;
      ghost var more := Recorded(log, block, t);
      assert (block, t) in more.recorded;
      CountsOneMore(log, more, failedIds, progressFailedCount, Block(block));
      FiledOneMore(log, failureTemplates, block, t);
      SameAttribution(log, more, blockRoots);
      NoteFailedId(Block(block));
      PushForRoots(RootsOf(blockRoots, block), block, t);
      JoinedWithTemplate(blockRoots, failureTemplates, log.store, multiset(old(failures)), multiset(failures), block,
          t);
      failureTemplates := failureTemplates[block := TemplatesOf(failureTemplates, block) + [t]];
      log := more;
    }

    /** A failure of the whole store is reported once per requested root. Without requested
        roots nothing is reported, and only then the progress counter can run ahead. */
    method RecordStoreFailure(requestedRootIds: seq<BlockId>, t: Template)
      requires Valid()
      modifies this
      ensures log == StoreFailed(old(log), requestedRootIds, t)
      ensures multiset(failures) == multiset(old(failures)) + multiset(StoreFailures(requestedRootIds, t))
      ensures Valid() <==> requestedRootIds != [] || DestinationStore in old(failedIds)
    {
      hide Joined, Filed, Sound, HoldsNoted, Closed, CountsFailedIds;
      ghost var more := StoreFailed(log, requestedRootIds, t);
      ghost var pushed := StoreFailures(requestedRootIds, t);
      CountsStoreFailure(log, failedIds, progressFailedCount, requestedRootIds, t);
      JoinedWithStoreFailures(blockRoots, failureTemplates, log.store, multiset(failures), requestedRootIds, t);
      SameAttribution(log, more, blockRoots);
      FiledAlike(log, more, failureTemplates);
      NoteFailedId(DestinationStore);
      ghost var before := failures;
      for i := 0 to |requestedRootIds|
        modifies this`failures
        invariant failures == before + pushed[..i]
      {
        failures := failures + [CopyFailure(requestedRootIds[i], DestinationStore, t)];
      }
      assert failures == before + pushed;
      log := more;
    }
  }
}
