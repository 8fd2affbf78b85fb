/** The walk over a snapshot directory with an explicit stack, against the recursive
    listing in which every directory's children come in path order. */
module DirectoryWalk {
  import opened Options
  import opened BlockGraph
  import opened Lexicographic
  import opened Sorting
  import opened Tallies

  /** What is found at a path, without following symbolic links. The children of a
      directory come in the order the file system gives them. */
  datatype Node = File(bytes: seq<Byte>) | Directory(children: seq<Child>) | Symlink | Special

  datatype Child = Child(name: string, node: Node)

  type Path = seq<string>

  datatype Located = Located(path: Path, node: Node)

  datatype FileEntry = FileEntry(path: Path, bytes: seq<Byte>)

  // ------------------------------------------------------------------- path order

  /** Component by component. */
  predicate PathLess(a: Path, b: Path) { LexLess(TextLess, a, b) }

  predicate LocatedLess(a: Located, b: Located) { PathLess(a.path, b.path) }

  predicate EntryLess(a: FileEntry, b: FileEntry) { PathLess(a.path, b.path) }

  lemma PathOrder()
    ensures StrictTotal(PathLess)
  {
    TextOrder();
    forall a, b ensures (PathLess(a, b) || PathLess(b, a) || a == b) && !(PathLess(a, b) && PathLess(b, a)) {
      LexTotal(TextLess, a, b);
    }
    forall a, b, c | PathLess(a, b) && PathLess(b, c) ensures PathLess(a, c) {
      LexTransitive(TextLess, a, b, c);
    }
  }

  /** Paths are compared by their first differing component, and components by their first
      differing character; what is a prefix comes first. */
  lemma PathLessIff(a: Path, b: Path)
    ensures PathLess(a, b) <==>
      exists k: nat :: k <= |a| && k < |b| && a[..k] == b[..k] && (k == |a| || TextLess(a[k], b[k]))
  {
    LexLessIff(TextLess, a, b);
    if k: nat :| k <= |a| && k < |b| && a[..k] == b[..k] && (k == |a| || TextLess(a[k], b[k])) {
      assert DecidesAt(TextLess, a, b, k);
    }
  }

  lemma PathsAreStrictWeak()
    ensures StrictWeak(LocatedLess) && StrictWeak(EntryLess)
  {
    PathOrder();
    assert forall a, b, c :: PathLess(a, c) ==> PathLess(a, b) || PathLess(b, c);
  }

  lemma {:induction false} CommonPrefix(p: Path, x: Path, y: Path)
    requires PathLess(x, y)
    ensures PathLess(p + x, p + y)
  {
    if p == [] {
      assert p + x == x && p + y == y;
    } else {
      assert (p + x)[1..] == p[1..] + x && (p + y)[1..] == p[1..] + y;
      CommonPrefix(p[1..], x, y);
    }
  }

  /** Everything below one name comes before everything below a greater one. */
  lemma NamesDecide(p: Path, a: string, b: string, x: Path, y: Path)
    requires TextLess(a, b)
    ensures PathLess(p + [a] + x, p + [b] + y)
  {
    CommonPrefix(p, [a] + x, [b] + y);
    assert p + ([a] + x) == p + [a] + x && p + ([b] + y) == p + [b] + y;
  }

  // -------------------------------------------------------------------- the listing

  function Weight(node: Node): (n: nat)
    ensures n >= 1
  {
    match node
    case Directory(children) => 1 + Weights(children)
    case _ => 1
  }

  function ChildWeight(c: Child): nat { Weight(c.node) }

  function Weights(children: seq<Child>): nat {
    if children == [] then 0 else ChildWeight(children[0]) + Weights(children[1..])
  }

  function LocatedWeight(p: Located): nat { Weight(p.node) }

  function Below(path: Path, children: seq<Child>): seq<Located> {
    if children == [] then [] else [Located(path + [children[0].name], children[0].node)] + Below(path, children[1..])
  }

  function SortedBelow(path: Path, children: seq<Child>): seq<Located> { Sort(LocatedLess, Below(path, children)) }

  lemma {:induction false} BelowWeighs(path: Path, children: seq<Child>)
    ensures Tally(Below(path, children), LocatedWeight) == Weights(children)
  {
    if children != [] { BelowWeighs(path, children[1..]); }
  }

  lemma SortWeighs(path: Path, children: seq<Child>)
    ensures Tally(SortedBelow(path, children), LocatedWeight) == Weights(children)
  {
    PathsAreStrictWeak();
    SortSorts(LocatedLess, Below(path, children));
    SameBagSameTally(SortedBelow(path, children), Below(path, children), LocatedWeight);
    BelowWeighs(path, children);
  }

  /** The recursive listing, in pre-order. */
  function Listing(p: Located): seq<FileEntry>
    decreases Weight(p.node), 0
  {
    match p.node
    case File(bytes) => [FileEntry(p.path, bytes)]
    case Directory(children) => SortWeighs(p.path, children); ListAll(SortedBelow(p.path, children))
    case _ => []
  }

  function ListAll(ps: seq<Located>): seq<FileEntry>
    decreases Tally(ps, LocatedWeight), 1
  {
    if ps == [] then [] else Listing(ps[0]) + ListAll(ps[1..])
  }

  lemma {:induction false} ListAllConcat(a: seq<Located>, b: seq<Located>)
    ensures ListAll(a + b) == ListAll(a) + ListAll(b)
  {
    if a == [] {
      assert a + b == b;
    } else {
      assert (a + b)[1..] == a[1..] + b;
      ListAllConcat(a[1..], b);
    }
  }

  // ------------------------------------------------------------------- the stack walk

  function Reversed<T>(xs: seq<T>): seq<T> {
    if xs == [] then [] else Reversed(xs[1..]) + [xs[0]]
  }

  lemma {:induction false} ReversedConcat<T>(xs: seq<T>, ys: seq<T>)
    ensures Reversed(xs + ys) == Reversed(ys) + Reversed(xs)
  {
    if xs == [] {
      assert xs + ys == ys;
    } else {
      assert (xs + ys)[1..] == xs[1..] + ys;
      ReversedConcat(xs[1..], ys);
    }
  }

  lemma {:induction false} ReversedTwice<T>(xs: seq<T>)
    ensures Reversed(Reversed(xs)) == xs
  {
    if xs != [] {
      ReversedTwice(xs[1..]);
      ReversedConcat(Reversed(xs[1..]), [xs[0]]);
      assert Reversed([xs[0]]) == [xs[0]];
    }
  }

  lemma {:induction false} ReversedWeighs(xs: seq<Located>)
    ensures Tally(Reversed(xs), LocatedWeight) == Tally(xs, LocatedWeight)
  {
    if xs != [] {
      ReversedWeighs(xs[1..]);
      TallyConcat(Reversed(xs[1..]), [xs[0]], LocatedWeight);
      TallyOne(xs[0], LocatedWeight);
    }
  }

  /** The top of the stack is handled next. */
  lemma TopFirst(rest: seq<Located>, top: Located)
    ensures ListAll(Reversed(rest + [top])) == Listing(top) + ListAll(Reversed(rest))
    ensures Tally(rest + [top], LocatedWeight) == Tally(rest, LocatedWeight) + Weight(top.node)
  {
    ReversedConcat(rest, [top]);
    assert Reversed([top]) == [top];
    ListAllConcat([top], Reversed(rest));
    assert [top][1..] == [];
    assert ListAll([top]) == Listing(top) + ListAll([top][1..]) == Listing(top);
    TallyConcat(rest, [top], LocatedWeight);
    TallyOne(top, LocatedWeight);
  }

  /** Pushing the sorted children in reverse puts the first one on top. */
  lemma DirectoryOpens(rest: seq<Located>, path: Path, children: seq<Child>)
    ensures var pushed := rest + Reversed(SortedBelow(path, children));
      && ListAll(Reversed(pushed)) == Listing(Located(path, Directory(children))) + ListAll(Reversed(rest))
      && Tally(pushed, LocatedWeight) == Tally(rest, LocatedWeight) + Weights(children)
  {
    var sorted := SortedBelow(path, children);
    ReversedConcat(rest, Reversed(sorted));
    ReversedTwice(sorted);
    ListAllConcat(sorted, Reversed(rest));
    TallyConcat(rest, Reversed(sorted), LocatedWeight);
    ReversedWeighs(sorted);
    SortWeighs(path, children);
  }

  /** Nothing goes wrong at any path below this one, including its own. */
  predicate Calm(p: Located, trouble: set<Path>)
    decreases p.node
  {
    && p.path !in trouble
    && (p.node.Directory? ==>
      forall i :: 0 <= i < |p.node.children| ==>
        Calm(Located(p.path + [p.node.children[i].name], p.node.children[i].node), trouble))
  }

  ghost predicate AllCalm(ps: seq<Located>, trouble: set<Path>) {
    forall p :: p in ps ==> Calm(p, trouble)
  }

  lemma {:induction false} BelowMembers(path: Path, children: seq<Child>, p: Located)
    ensures p in Below(path, children) <==>
      exists i :: 0 <= i < |children| && p == Located(path + [children[i].name], children[i].node)
  {
    if children != [] {
      BelowMembers(path, children[1..], p);
      if exists i :: 0 <= i < |children| && p == Located(path + [children[i].name], children[i].node) {
        var i :| 0 <= i < |children| && p == Located(path + [children[i].name], children[i].node);
        if i > 0 { assert children[1..][i - 1] == children[i]; }
      }
      if p in Below(path, children[1..]) {
        var i :| 0 <= i < |children[1..]| && p == Located(path + [children[1..][i].name], children[1..][i].node);
        assert children[i + 1] == children[1..][i];
      }
    }
  }

  lemma {:induction false} ReversedMembers<T(!new)>(xs: seq<T>)
    ensures forall x :: x in Reversed(xs) <==> x in xs
  {
    if xs != [] {
      ReversedMembers(xs[1..]);
      assert xs == [xs[0]] + xs[1..];
    }
  }

  /** Opening a directory passes the question on to its children. */
  lemma CalmOpens(path: Path, children: seq<Child>, trouble: set<Path>)
    requires path !in trouble
    ensures Calm(Located(path, Directory(children)), trouble) <==>
      AllCalm(Reversed(SortedBelow(path, children)), trouble)
  {
    var below := Below(path, children);
    PathsAreStrictWeak();
    SortedMembers(LocatedLess, below);
    ReversedMembers(SortedBelow(path, children));
    forall p { BelowMembers(path, children, p); }
    hide Below, SortedBelow, Reversed;
    if AllCalm(below, trouble) {
      forall i | 0 <= i < |children| ensures Calm(Located(path + [children[i].name], children[i].node), trouble) {
        assert Located(path + [children[i].name], children[i].node) in below;
      }
    }
  }

  lemma CalmConcat(a: seq<Located>, b: seq<Located>, trouble: set<Path>)
    ensures AllCalm(a + b, trouble) <==> AllCalm(a, trouble) && AllCalm(b, trouble)
  {
    forall p | p in a ensures p in a + b { }
    forall p | p in b ensures p in a + b { }
  }

  /** `trouble` holds the paths at which the file system or the store fails. The walk fails
      exactly when it meets one of them. */
  method CollectSnapshotEntries(root: Located, trouble: set<Path>) returns (ok: bool, entries: seq<FileEntry>)
    ensures ok <==> Calm(root, trouble)
    ensures ok ==> entries == Listing(root)
  {
    hide Listing, ListAll, Reversed, SortedBelow, Weight, Tally, Calm, AllCalm;
    entries := [];
    var pending := [root];
    TopFirst([], root);
    assert [] + [root] == [root] && Reversed<Located>([]) == [] && ListAll([]) == [] by { NothingPending(); }
    assert Listing(root) + [] == Listing(root);
    CalmSingle(root, trouble);
    while pending != []
      invariant entries + ListAll(Reversed(pending)) == Listing(root)
      invariant AllCalm(pending, trouble) <==> Calm(root, trouble)
      decreases Tally(pending, LocatedWeight)
    {
      var top := pending[|pending| - 1];
      var rest := pending[..|pending| - 1];
      assert pending == rest + [top];
      TopFirst(rest, top);
      CalmConcat(rest, [top], trouble);
      CalmSingle(top, trouble);
      assert Weight(top.node) >= 1;
      ListingOf(top);
      assert (entries + Listing(top)) + ListAll(Reversed(rest)) == entries + (Listing(top) + ListAll(Reversed(rest)));
      pending := rest;
      if top.path in trouble { return false, entries; }
      match top.node {
        case Symlink => assert entries + [] == entries;
        case Directory(children) =>
          DirectoryOpens(rest, top.path, children);
          var sorted := SortedBelow(top.path, children);
          CalmOpens(top.path, children, trouble);
          CalmConcat(rest, Reversed(sorted), trouble);
          pending := PushReversed(pending, sorted);
        case Special => assert entries + [] == entries;
        case File(bytes) => entries := entries + [FileEntry(top.path, bytes)];
      }
    }
    NothingPending();
    AllCalmNothing(trouble);
    return true, entries;
  }

  lemma AllCalmNothing(trouble: set<Path>)
    ensures AllCalm([], trouble)
  {
  }

  /** A single path is calm as a list of paths; and what is not a directory is calm on its own. */
  lemma CalmSingle(p: Located, trouble: set<Path>)
    ensures AllCalm([p], trouble) <==> Calm(p, trouble)
    ensures p.path in trouble ==> !Calm(p, trouble)
    ensures p.path !in trouble && !p.node.Directory? ==> Calm(p, trouble)
  {
    assert p in [p];
  }

  lemma NothingPending()
    ensures Reversed<Located>([]) == [] && ListAll([]) == []
  {
  }

  lemma ListingOf(p: Located)
    ensures p.node.File? ==> Listing(p) == [FileEntry(p.path, p.node.bytes)]
    ensures p.node.Symlink? || p.node.Special? ==> Listing(p) == []
    ensures p.node.Directory? ==> Weight(p.node) == 1 + Weights(p.node.children)
  {
  }

  method PushReversed(stack: seq<Located>, children: seq<Located>) returns (pushed: seq<Located>)
    ensures pushed == stack + Reversed(children)
  {
    pushed := stack;
    var i := |children|;
    assert children[|children|..] == [];
    while i > 0
      invariant 0 <= i <= |children| && pushed == stack + Reversed(children[i..])
    {
      i := i - 1;
      assert children[i..] == [children[i]] + children[i + 1..];
      ReversedConcat([children[i]], children[i + 1..]);
      assert Reversed([children[i]]) == [children[i]];
      pushed := pushed + [children[i]];
    }
    assert children[0..] == children;
  }

  // -------------------------------------------------------------- what is listed

  /** Names are unique within a directory. */
  ghost predicate WellFormed(node: Node) {
    match node
    case Directory(children) =>
      && (forall i, j :: 0 <= i < j < |children| ==> children[i].name != children[j].name)
      && (forall i :: 0 <= i < |children| ==> WellFormed(children[i].node))
    case _ => true
  }

  function ChildNamed(children: seq<Child>, name: string): Option<Node> {
    if children == [] then None
    else if children[0].name == name then Some(children[0].node)
    else ChildNamed(children[1..], name)
  }

  /** The regular file at a relative path. */
  function FileAt(node: Node, path: Path): Option<seq<Byte>>
    decreases |path|
  {
    if path == [] then (if node.File? then Some(node.bytes) else None)
    else if !node.Directory? then None
    else match ChildNamed(node.children, path[0])
      case None => None
      case Some(child) => FileAt(child, path[1..])
  }

  lemma {:induction false} ChildNamedIs(children: seq<Child>, i: nat)
    requires i < |children| && forall j, k :: 0 <= j < k < |children| ==> children[j].name != children[k].name
    ensures ChildNamed(children, children[i].name) == Some(children[i].node)
  {
    if i > 0 {
      assert children[0].name != children[i].name;
      ChildNamedIs(children[1..], i - 1);
    }
  }

  lemma {:induction false} ChildNamedExists(children: seq<Child>, name: string) returns (i: nat)
    requires ChildNamed(children, name).Some?
    ensures i < |children| && children[i].name == name && ChildNamed(children, name) == Some(children[i].node)
  {
    if children[0].name == name {
      i := 0;
    } else {
      i := ChildNamedExists(children[1..], name);
      i := i + 1;
    }
  }

  lemma {:induction false} BelowHolds(path: Path, children: seq<Child>)
    ensures |Below(path, children)| == |children|
    ensures forall i :: 0 <= i < |children| ==>
      Below(path, children)[i] == Located(path + [children[i].name], children[i].node)
  {
    if children != [] { BelowHolds(path, children[1..]); }
  }

  lemma {:induction false} ListAllHolds(ps: seq<Located>, e: FileEntry)
    ensures e in ListAll(ps) <==> exists i :: 0 <= i < |ps| && e in Listing(ps[i])
  {
    hide Listing;
    if ps != [] {
      ListAllHolds(ps[1..], e);
      if e in ListAll(ps[1..]) {
        var i :| 0 <= i < |ps[1..]| && e in Listing(ps[1..][i]);
        assert ps[i + 1] == ps[1..][i];
      }
      if exists i :: 0 <= i < |ps| && e in Listing(ps[i]) {
        var i :| 0 <= i < |ps| && e in Listing(ps[i]);
        if i > 0 { assert ps[1..][i - 1] == ps[i]; }
      }
    }
  }

  /** The listing of a directory holds what the listings of its children hold. */
  lemma DirectoryLists(path: Path, children: seq<Child>, e: FileEntry)
    ensures e in Listing(Located(path, Directory(children)))
      <==> exists i :: 0 <= i < |children| && e in Listing(Located(path + [children[i].name], children[i].node))
  {
    var below, sorted := Below(path, children), SortedBelow(path, children);
    PathsAreStrictWeak();
    SortedMembers(LocatedLess, below);
    BelowHolds(path, children);
    ListAllHolds(sorted, e);
    ListingOfDirectory(path, children);
    hide Listing;
    if e in ListAll(sorted) {
      var j :| 0 <= j < |sorted| && e in Listing(sorted[j]);
      assert sorted[j] in below;
      var i :| 0 <= i < |below| && below[i] == sorted[j];
      assert e in Listing(Located(path + [children[i].name], children[i].node));
    }
    if exists i :: 0 <= i < |children| && e in Listing(Located(path + [children[i].name], children[i].node)) {
      var i :| 0 <= i < |children| && e in Listing(Located(path + [children[i].name], children[i].node));
      assert below[i] in sorted;
      var j :| 0 <= j < |sorted| && sorted[j] == below[i];
      assert e in Listing(sorted[j]);
    }
  }

  lemma ListingOfDirectory(path: Path, children: seq<Child>)
    ensures Listing(Located(path, Directory(children))) == ListAll(SortedBelow(path, children))
  {
  }

  /** Exactly the regular files are listed, under their own paths. */
  lemma {:induction false} ListsExactlyTheFiles(path: Path, node: Node, e: FileEntry)
    requires WellFormed(node)
    ensures e in Listing(Located(path, node)) <==>
      path <= e.path && FileAt(node, e.path[|path|..]) == Some(e.bytes)
    decreases node
  {
    match node
    case Directory(children) =>
      forall i | 0 <= i < |children|
        ensures e in Listing(Located(path + [children[i].name], children[i].node)) <==>
          path + [children[i].name] <= e.path && FileAt(children[i].node, e.path[|path| + 1..]) == Some(e.bytes)
      {
        ListsExactlyTheFiles(path + [children[i].name], children[i].node, e);
      }
      DirectoryLists(path, children, e);
      DirectoryFiles(path, children, e);
    case _ =>
      if path <= e.path && e.path[|path|..] == [] { assert e.path == path; }
  }

  ghost predicate BelowChild(path: Path, c: Child, e: FileEntry) {
    path + [c.name] <= e.path && FileAt(c.node, e.path[|path| + 1..]) == Some(e.bytes)
  }

  lemma DirectoryFiles(path: Path, children: seq<Child>, e: FileEntry)
    requires WellFormed(Directory(children))
    ensures path <= e.path && FileAt(Directory(children), e.path[|path|..]) == Some(e.bytes)
       <==> exists i :: 0 <= i < |children| && BelowChild(path, children[i], e)
  {
    var n := |path|;
    if path <= e.path && FileAt(Directory(children), e.path[n..]) == Some(e.bytes) {
      var rel := e.path[n..];
      var i := ChildNamedExists(children, rel[0]);
      assert rel[1..] == e.path[n + 1..];
      assert e.path == path + rel && rel == [rel[0]] + rel[1..];
      assert BelowChild(path, children[i], e);
    }
    if exists i :: 0 <= i < |children| && BelowChild(path, children[i], e) {
      var i :| 0 <= i < |children| && BelowChild(path, children[i], e);
      ChildNamedIs(children, i);
      assert (path + [children[i].name])[..n] == path;
      assert e.path[n] == (path + [children[i].name])[n] == children[i].name;
      assert e.path[n..][1..] == e.path[n + 1..];
    }
  }

  // ------------------------------------------------------------------ in which order

  lemma SortedBelowIncreases(path: Path, children: seq<Child>)
    requires WellFormed(Directory(children))
    ensures Increasing(LocatedLess, SortedBelow(path, children))
    ensures forall p :: p in SortedBelow(path, children) ==>
      WellFormed(p.node) && p.path != [] && p.path == path + [p.path[|p.path| - 1]]
  {
    var below, sorted := Below(path, children), SortedBelow(path, children);
    PathsAreStrictWeak();
    PathOrder();
    SortSorts(LocatedLess, below);
    BelowHolds(path, children);
    SortedMembers(LocatedLess, below);
    forall i, j | 0 <= i < j < |sorted| ensures LocatedLess(sorted[i], sorted[j]) {
      assert !LocatedLess(sorted[j], sorted[i]);
      if sorted[i].path == sorted[j].path { SamePathTwice(path, children, sorted, i, j); }
    }
  }

  /** Two places of a sorted directory never hold the same path. */
  lemma SamePathTwice(path: Path, children: seq<Child>, sorted: seq<Located>, i: nat, j: nat)
    requires WellFormed(Directory(children)) && multiset(sorted) == multiset(Below(path, children)) && i < j < |sorted|
    ensures sorted[i].path != sorted[j].path
  {
    var below := Below(path, children);
    BelowHolds(path, children);
    var k, l := TwoInOther(sorted, below, i, j);
    assert children[k].name != children[l].name;
    assert below[k].path[|path|] == children[k].name && below[l].path[|path|] == children[l].name;
  }

  lemma {:induction false} ListAllIncreases(path: Path, ps: seq<Located>)
    requires Increasing(LocatedLess, ps)
    requires forall p :: p in ps ==> WellFormed(p.node) && p.path != [] && p.path == path + [p.path[|p.path| - 1]]
    requires forall p :: p in ps ==> Increasing(EntryLess, Listing(p))
    ensures Increasing(EntryLess, ListAll(ps))
  {
    hide Listing, FileAt;
    if ps != [] {
      var first, rest := ps[0], ps[1..];
      PathsAreStrictWeak();
      TailIncreases(LocatedLess, ps);
      assert ps == [first] + rest;
      ListAllIncreases(path, rest);
      var a, b := Listing(first), ListAll(rest);
      forall i, j | 0 <= i < |a| && 0 <= j < |b| ensures EntryLess(a[i], b[j]) {
        ListAllHolds(rest, b[j]);
        var k :| 0 <= k < |rest| && b[j] in Listing(rest[k]);
        assert LocatedLess(ps[0], ps[k + 1]);
        SiblingsAreOrdered(path, first, rest[k], a[i], b[j]);
      }
      ConcatIncreases(a, b);
    }
  }

  lemma ConcatIncreases(a: seq<FileEntry>, b: seq<FileEntry>)
    requires Increasing(EntryLess, a) && Increasing(EntryLess, b)
    requires forall i, j :: 0 <= i < |a| && 0 <= j < |b| ==> EntryLess(a[i], b[j])
    ensures Increasing(EntryLess, a + b)
  {
  }

  lemma SiblingsAreOrdered(path: Path, p: Located, q: Located, e: FileEntry, f: FileEntry)
    requires WellFormed(p.node) && WellFormed(q.node) && LocatedLess(p, q) && e in Listing(p) && f in Listing(q)
    requires p.path != [] && p.path == path + [p.path[|p.path| - 1]] && q.path != []
    requires q.path == path + [q.path[|q.path| - 1]]
    ensures EntryLess(e, f)
  {
    hide Listing, FileAt;
    ListsExactlyTheFiles(p.path, p.node, e);
    ListsExactlyTheFiles(q.path, q.node, f);
    var a, b := p.path[|p.path| - 1], q.path[|q.path| - 1];
    NamesAreOrdered(path, a, b);
    NamesDecide(path, a, b, e.path[|p.path|..], f.path[|q.path|..]);
    assert e.path == p.path + e.path[|p.path|..] && f.path == q.path + f.path[|q.path|..];
  }

  lemma NamesAreOrdered(path: Path, a: string, b: string)
    requires PathLess(path + [a], path + [b])
    ensures TextLess(a, b)
  {
    TextOrder();
    PathOrder();
    if TextLess(b, a) {
      CommonPrefix(path, [b], [a]);
    }
  }

  /** The listing is strictly increasing in path order; so no file is listed twice. */
  lemma {:induction false} ListingIncreases(path: Path, node: Node)
    requires WellFormed(node)
    ensures Increasing(EntryLess, Listing(Located(path, node)))
    decreases node
  {
    match node
    case Directory(children) =>
      SortedBelowIncreases(path, children);
      var sorted := SortedBelow(path, children);
      PathsAreStrictWeak();
      SortedMembers(LocatedLess, Below(path, children));
      BelowHolds(path, children);
      forall p | p in sorted ensures Increasing(EntryLess, Listing(p)) {
        var i :| 0 <= i < |children| && p == Below(path, children)[i];
        ListingIncreases(path + [children[i].name], children[i].node);
      }
      ListingOfDirectory(path, children);
      ListAllIncreases(path, sorted);
    case _ =>
  }

  // ------------------------------------------------------- independence of read order

  /** The listing depends only on which files there are. */
  lemma SameFilesSameListing(path: Path, a: Node, b: Node)
    requires WellFormed(a) && WellFormed(b) && forall rel :: FileAt(a, rel) == FileAt(b, rel)
    ensures Listing(Located(path, a)) == Listing(Located(path, b))
  {
    hide Listing, FileAt, WellFormed;
    PathsAreStrictWeak();
    ListingIncreases(path, a);
    ListingIncreases(path, b);
    forall e ensures e in Listing(Located(path, a)) <==> e in Listing(Located(path, b)) {
      ListsExactlyTheFiles(path, a, e);
      ListsExactlyTheFiles(path, b, e);
    }
    IncreasingIsUnique(EntryLess, Listing(Located(path, a)), Listing(Located(path, b)));
  }

  /** The two trees differ at most in the order in which directories give their children. */
  ghost predicate Reordered(a: Node, b: Node)
    decreases a
  {
    match a
    case Directory(children) =>
      && b.Directory?
      && (forall name :: ChildNamed(children, name).Some? <==> ChildNamed(b.children, name).Some?)
      && (forall i :: 0 <= i < |children| ==>
            ChildNamed(b.children, children[i].name).Some? &&
              Reordered(children[i].node, ChildNamed(b.children, children[i].name).value))
    case _ => a == b
  }

  lemma {:induction false} ReorderedSameFiles(a: Node, b: Node, rel: Path)
    requires Reordered(a, b)
    ensures FileAt(a, rel) == FileAt(b, rel)
    decreases |rel|
  {
    if rel != [] && a.Directory? && ChildNamed(a.children, rel[0]).Some? {
      var i := ChildNamedExists(a.children, rel[0]);
      ReorderedSameFiles(a.children[i].node, ChildNamed(b.children, rel[0]).value, rel[1..]);
    }
  }

  /** Nor does it matter for whether something goes wrong below a path. */
  lemma {:induction false} ReorderedAsCalm(path: Path, a: Node, b: Node, trouble: set<Path>)
    requires Reordered(a, b) && WellFormed(b)
    ensures Calm(Located(path, a), trouble) <==> Calm(Located(path, b), trouble)
    decreases a
  {
    if a.Directory? {
      forall i | 0 <= i < |a.children|
        ensures var name := a.children[i].name;
          && ChildNamed(b.children, name).Some?
          && (Calm(Located(path + [name], a.children[i].node), trouble) <==>
               Calm(Located(path + [name], ChildNamed(b.children, name).value), trouble))
      {
        var name := a.children[i].name;
        var k := ChildNamedExists(b.children, name);
        ReorderedAsCalm(path + [name], a.children[i].node, b.children[k].node, trouble);
      }
      CalmBothWays(path, a.children, b.children, trouble);
    }
  }

  lemma CalmBothWays(path: Path, xs: seq<Child>, ys: seq<Child>, trouble: set<Path>)
    requires forall name :: ChildNamed(xs, name).Some? <==> ChildNamed(ys, name).Some?
    requires forall i, j :: 0 <= i < j < |ys| ==> ys[i].name != ys[j].name
    requires forall i :: 0 <= i < |xs| ==>
      && ChildNamed(ys, xs[i].name).Some?
      && (Calm(Located(path + [xs[i].name], xs[i].node), trouble) <==>
           Calm(Located(path + [xs[i].name], ChildNamed(ys, xs[i].name).value), trouble))
    ensures (forall i :: 0 <= i < |xs| ==> Calm(Located(path + [xs[i].name], xs[i].node), trouble))
      <==> (forall k :: 0 <= k < |ys| ==> Calm(Located(path + [ys[k].name], ys[k].node), trouble))
  {
    hide Calm;
    if forall i :: 0 <= i < |xs| ==> Calm(Located(path + [xs[i].name], xs[i].node), trouble) {
      forall k | 0 <= k < |ys| ensures Calm(Located(path + [ys[k].name], ys[k].node), trouble) {
        ChildNamedIs(ys, k);
        var i := ChildNamedExists(xs, ys[k].name);
        assert xs[i].name == ys[k].name;
      }
    }
    if forall k :: 0 <= k < |ys| ==> Calm(Located(path + [ys[k].name], ys[k].node), trouble) {
      forall i | 0 <= i < |xs| ensures Calm(Located(path + [xs[i].name], xs[i].node), trouble) {
        var k := ChildNamedExists(ys, xs[i].name);
      }
    }
  }

  /** Neither the listing nor the identity derived from it depends on the order in which
      the file system lists a directory. */
  lemma ReadOrderIsIrrelevant(digest: (string, seq<FileEntry>) -> string, sourceUri: string, path: Path, a: Node,
      b: Node)
    requires WellFormed(a) && WellFormed(b) && Reordered(a, b)
    ensures Listing(Located(path, a)) == Listing(Located(path, b))
    ensures digest(sourceUri, Listing(Located(path, a))) == digest(sourceUri, Listing(Located(path, b)))
  {
    hide Listing, FileAt, WellFormed, Reordered;
    forall rel ensures FileAt(a, rel) == FileAt(b, rel) { ReorderedSameFiles(a, b, rel); }
    SameFilesSameListing(path, a, b);
  }
}
