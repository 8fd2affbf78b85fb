/** The bounded sample of the corpus: while the leaves are walked, the entries with the
    smallest keys are kept, whatever the order in which they turn up. */
module CorpusSample {
  import opened Options
  import opened BlockGraph
  import opened BoundedHeap
  import opened Lexicographic
  import opened Sorting

  /** The parts of a leaf entry that its neighbour id is computed from. */
  datatype RawEntry = RawEntry(embedding: Bytes, mediaType: Bytes, body: Bytes, metadata: seq<(Bytes, Bytes)>)

  /** An entry and the leaf it is in. */
  datatype Origin = Origin(leaf: BlockId, entry: RawEntry)

  datatype CorpusLeafEntry = CorpusLeafEntry(neighborId: string, leaf: BlockId, embedding: seq<real>)

  datatype SampleCandidate = SampleCandidate(key: Bytes, entry: CorpusLeafEntry)

  /** The codings around the corpus: block ids as bytes, hex digests, sampling keys, the byte
      length that a leaf's specification expects of embeddings, if it is supported, and the
      numbers such bytes stand for, if they are finite. */
  datatype Coding = Coding(
    idBytes: BlockId -> Bytes,
    digest: Bytes -> string,
    key: (string, nat) -> Bytes,
    byteLength: BlockId -> Option<nat>,
    numbers: (BlockId, Bytes) -> Option<seq<real>>,
    hasMagnitude: seq<real> -> bool)

  /** The embedding of an entry; bytes of another length are not accepted. */
  function Values(c: Coding, leaf: BlockId, embedding: Bytes): Option<seq<real>> {
    if c.byteLength(leaf) == Some(|embedding|) then c.numbers(leaf, embedding) else None
  }

  function MetadataBytes(metadata: seq<(Bytes, Bytes)>): Bytes {
    if metadata == [] then [] else metadata[0].0 + [0] + metadata[0].1 + [255] + MetadataBytes(metadata[1..])
  }

  function Content(e: RawEntry): Bytes { e.mediaType + e.body + MetadataBytes(e.metadata) }

  /** What is hashed for the neighbour id. */
  function Hashed(c: Coding, leaf: BlockId, e: RawEntry): Bytes { c.idBytes(leaf) + e.embedding + Content(e) }

  function NeighborId(c: Coding, leaf: BlockId, e: RawEntry): string { c.digest(Hashed(c, leaf, e)) }

  /** Among these entries, the ids of leaves have one length and differ, and no two digests
      collide. */
  ghost predicate Distinctive(c: Coding, origins: set<Origin>) {
    forall o, u :: o in origins && u in origins ==>
      && |c.idBytes(o.leaf)| == |c.idBytes(u.leaf)|
      && (c.idBytes(o.leaf) == c.idBytes(u.leaf) ==> o.leaf == u.leaf)
      && (NeighborId(c, o.leaf, o.entry) == NeighborId(c, u.leaf, u.entry) ==>
            Hashed(c, o.leaf, o.entry) == Hashed(c, u.leaf, u.entry))
  }

  function CandidateFor(c: Coding, seed: nat, leaf: BlockId, e: RawEntry): SampleCandidate
    requires Values(c, leaf, e.embedding).Some?
  {
    var id := NeighborId(c, leaf, e);
    SampleCandidate(c.key(id, seed), CorpusLeafEntry(id, leaf, Values(c, leaf, e.embedding).value))
  }

  // ---------------------------------------------------------------------- the order

  predicate ByteLess(a: Byte, b: Byte) { a < b }

  predicate KeyLess(a: Bytes, b: Bytes) { LexLess(ByteLess, a, b) }

  /** By key, then by neighbour id, then by leaf; embeddings are not compared. */
  predicate SampleLess(a: SampleCandidate, b: SampleCandidate) {
    || KeyLess(a.key, b.key)
    || (a.key == b.key && TextLess(a.entry.neighborId, b.entry.neighborId))
    || (a.key == b.key && a.entry.neighborId == b.entry.neighborId && a.entry.leaf.digest < b.entry.leaf.digest)
  }

  /** Keys are compared by their first differing byte. */
  lemma KeyLessIff(a: Bytes, b: Bytes)
    ensures KeyLess(a, b) <==>
      exists k: nat :: k <= |a| && k < |b| && a[..k] == b[..k] && (k == |a| || a[k] < b[k])
  {
    LexLessIff(ByteLess, a, b);
    if k: nat :| k <= |a| && k < |b| && a[..k] == b[..k] && (k == |a| || a[k] < b[k]) {
      assert DecidesAt(ByteLess, a, b, k);
    }
  }

  /** Among equal keys the smaller neighbour id comes first, and then the smaller leaf. */
  lemma SampleLessIs(a: SampleCandidate, b: SampleCandidate)
    ensures KeyLess(a.key, b.key) ==> SampleLess(a, b)
    ensures a.key == b.key && TextLess(a.entry.neighborId, b.entry.neighborId) ==> SampleLess(a, b)
    ensures a.key == b.key && a.entry.neighborId == b.entry.neighborId && a.entry.leaf.digest < b.entry.leaf.digest
      ==> SampleLess(a, b)
  {
  }

  lemma KeyOrder()
    ensures StrictTotal(KeyLess)
  {
    forall a, b ensures (KeyLess(a, b) || KeyLess(b, a) || a == b) && !(KeyLess(a, b) && KeyLess(b, a)) {
      LexTotal(ByteLess, a, b);
    }
    forall a, b, c | KeyLess(a, b) && KeyLess(b, c) ensures KeyLess(a, c) {
      LexTransitive(ByteLess, a, b, c);
    }
  }

  predicate Ties(a: SampleCandidate, b: SampleCandidate) {
    a.key == b.key && a.entry.neighborId == b.entry.neighborId && a.entry.leaf == b.entry.leaf
  }

  lemma SampleCases(a: SampleCandidate, b: SampleCandidate)
    ensures !SampleLess(a, a) && !(SampleLess(a, b) && SampleLess(b, a))
    ensures !SampleLess(a, b) && !SampleLess(b, a) <==> Ties(a, b)
  {
    KeyOrder();
    TextOrder();
    assert !(KeyLess(a.key, a.key) && KeyLess(a.key, a.key));
    assert !(TextLess(a.entry.neighborId, a.entry.neighborId) && TextLess(a.entry.neighborId, a.entry.neighborId));
    assert KeyLess(a.key, b.key) || KeyLess(b.key, a.key) || a.key == b.key;
    assert TextLess(a.entry.neighborId, b.entry.neighborId) || TextLess(b.entry.neighborId, a.entry.neighborId)
      || a.entry.neighborId == b.entry.neighborId;
  }

  lemma SampleTransitive(a: SampleCandidate, b: SampleCandidate, c: SampleCandidate)
    requires SampleLess(a, b) && SampleLess(b, c)
    ensures SampleLess(a, c)
  {
    KeyOrder();
    TextOrder();
    assert KeyLess(a.key, b.key) && KeyLess(b.key, c.key) ==> KeyLess(a.key, c.key);
    assert TextLess(a.entry.neighborId, b.entry.neighborId) && TextLess(b.entry.neighborId, c.entry.neighborId)
      ==> TextLess(a.entry.neighborId, c.entry.neighborId);
  }

  lemma SampleOrder()
    ensures StrictWeak(SampleLess)
  {
    forall a ensures !SampleLess(a, a) { SampleCases(a, a); }
    forall a, b, c | SampleLess(a, b) && SampleLess(b, c) ensures SampleLess(a, c) { SampleTransitive(a, b, c); }
    forall a, b, c | SampleLess(a, c) ensures SampleLess(a, b) || SampleLess(b, c) {
      SampleCases(a, b);
      if Ties(a, b) {
      } else if SampleLess(b, a) {
        SampleTransitive(b, a, c);
      }
    }
  }

  // -------------------------------------------------------------- there are no ties

  /** The candidate is one of these entries. */
  ghost predicate Genuine(c: Coding, seed: nat, origins: set<Origin>, s: SampleCandidate) {
    exists o: Origin :: o in origins && Values(c, o.leaf, o.entry.embedding).Some?
      && s == CandidateFor(c, seed, o.leaf, o.entry)
  }

  lemma SameStart(a: Bytes, x: Bytes, b: Bytes, y: Bytes)
    requires a + x == b + y && |a| == |b|
    ensures a == b && x == y
  {
    assert a == (a + x)[..|a|] && b == (b + y)[..|b|];
    assert x == (a + x)[|a|..] && y == (b + y)[|b|..];
  }

  /** A neighbour id determines its leaf and its embedding: what is hashed starts with the
      leaf's id, and a leaf's embeddings have one length. */
  lemma IdDeterminesEntry(c: Coding, origins: set<Origin>, o: Origin, u: Origin)
    requires Distinctive(c, origins) && o in origins && u in origins
    requires Values(c, o.leaf, o.entry.embedding).Some? && Values(c, u.leaf, u.entry.embedding).Some?
    requires NeighborId(c, o.leaf, o.entry) == NeighborId(c, u.leaf, u.entry)
    ensures o.leaf == u.leaf && o.entry.embedding == u.entry.embedding
  {
    hide MetadataBytes, Content;
    var x, y := Content(o.entry), Content(u.entry);
    assert Hashed(c, o.leaf, o.entry) == Hashed(c, u.leaf, u.entry);
    PrefixSplits(c.idBytes(o.leaf), o.entry.embedding, x, c.idBytes(u.leaf), u.entry.embedding, y);
    SameStart(o.entry.embedding, x, u.entry.embedding, y);
  }

  predicate Textual(metadata: seq<(Bytes, Bytes)>) {
    forall i :: 0 <= i < |metadata| ==> 0 !in metadata[i].0 && 255 !in metadata[i].1
  }

  /** Metadata whose keys hold no zero byte and whose values no byte 255 (as in UTF-8 texts
      without NUL) are told apart by what is hashed of them. */
  lemma {:induction false} MetadataDiffer(a: seq<(Bytes, Bytes)>, b: seq<(Bytes, Bytes)>)
    requires Textual(a) && Textual(b) && MetadataBytes(a) == MetadataBytes(b)
    ensures a == b
  {
    if a != [] && b != [] {
      var x, y := MetadataBytes(a[1..]), MetadataBytes(b[1..]);
      assert a[0].0 + [0] + (a[0].1 + [255] + x) == MetadataBytes(a) == b[0].0 + [0] + (b[0].1 + [255] + y);
      CutAt(0, a[0].0, a[0].1 + [255] + x, b[0].0, b[0].1 + [255] + y);
      CutAt(255, a[0].1, x, b[0].1, y);
      MetadataDiffer(a[1..], b[1..]);
      assert a == [a[0]] + a[1..] && b == [b[0]] + b[1..];
    }
  }

  lemma CutAt(mark: Byte, a: Bytes, x: Bytes, b: Bytes, y: Bytes)
    requires mark !in a && mark !in b && a + [mark] + x == b + [mark] + y
    ensures a == b && x == y
  {
    var s := a + [mark] + x;
    assert s[..|a|] == a && (b + [mark] + y)[..|b|] == b;
    assert forall i :: 0 <= i < |a| ==> s[i] == a[i] && a[i] in a;
    assert forall i :: 0 <= i < |b| ==> s[i] == b[i] && b[i] in b;
    assert s[|a|] == mark == s[|b|];
    assert s[|a| + 1..] == x && (b + [mark] + y)[|b| + 1..] == y;
  }

  /** Entries of one leaf that differ in one component only have different neighbour ids. */
  lemma IdSeesContent(c: Coding, origins: set<Origin>, leaf: BlockId, e: RawEntry, f: RawEntry)
    requires Distinctive(c, origins) && Origin(leaf, e) in origins && Origin(leaf, f) in origins && e != f
    requires Textual(e.metadata) && Textual(f.metadata)
    requires f == e.(embedding := f.embedding) || f == e.(mediaType := f.mediaType) || f == e.(body := f.body)
      || f == e.(metadata := f.metadata)
    ensures NeighborId(c, leaf, e) != NeighborId(c, leaf, f)
  {
    var o, u := Origin(leaf, e), Origin(leaf, f);
    if NeighborId(c, leaf, e) == NeighborId(c, leaf, f) {
      assert Hashed(c, o.leaf, o.entry) == Hashed(c, u.leaf, u.entry);
      SameHashSameEntry(c.idBytes(leaf), e, f);
    }
  }

  lemma SameHashSameEntry(id: Bytes, e: RawEntry, f: RawEntry)
    requires id + e.embedding + Content(e) == id + f.embedding + Content(f)
    requires Textual(e.metadata) && Textual(f.metadata)
    requires f == e.(embedding := f.embedding) || f == e.(mediaType := f.mediaType) || f == e.(body := f.body)
      || f == e.(metadata := f.metadata)
    ensures e == f
  {
    hide MetadataBytes;
    var x, y := MetadataBytes(e.metadata), MetadataBytes(f.metadata);
    PrefixSplits(id, e.embedding, Content(e), id, f.embedding, Content(f));
    Regrouped(e.embedding, e.mediaType, e.body, x);
    Regrouped(f.embedding, f.mediaType, f.body, y);
    if f == e.(embedding := f.embedding) {
      SameEnd(e.embedding, f.embedding, Content(e));
    } else if f == e.(mediaType := f.mediaType) {
      SameStart(e.embedding, Content(e), f.embedding, Content(f));
      Regrouped([], e.mediaType, e.body, x);
      Regrouped([], f.mediaType, f.body, y);
      SameEnd(e.mediaType, f.mediaType, e.body + x);
    } else if f == e.(body := f.body) {
      SameStart(e.embedding + e.mediaType, e.body + x, f.embedding + f.mediaType, f.body + y);
      SameEnd(e.body, f.body, x);
    } else {
      SameStart(e.embedding + e.mediaType + e.body, x, f.embedding + f.mediaType + f.body, y);
      MetadataDiffer(e.metadata, f.metadata);
    }
  }

  lemma Regrouped(a: Bytes, b: Bytes, c: Bytes, d: Bytes)
    ensures a + (b + c + d) == (a + b) + (c + d) == (a + b + c) + d
    ensures a == [] ==> b + c + d == b + (c + d)
  {
  }

  lemma SameEnd(a: Bytes, b: Bytes, end: Bytes)
    requires a + end == b + end
    ensures a == b
  {
    assert |a| == |b|;
    SameStart(a, end, b, end);
  }

  lemma PrefixSplits(a: Bytes, x: Bytes, u: Bytes, b: Bytes, y: Bytes, v: Bytes)
    requires a + x + u == b + y + v && |a| == |b|
    ensures a == b && x + u == y + v
  {
    assert a + x + u == a + (x + u) && b + y + v == b + (y + v);
    SameStart(a, x + u, b, y + v);
  }

  /** Although the order ignores embeddings, different entries of leaves never tie. */
  lemma GenuineNeverTie(c: Coding, seed: nat, origins: set<Origin>, all: multiset<SampleCandidate>)
    requires Distinctive(c, origins) && forall s :: s in all ==> Genuine(c, seed, origins, s)
    ensures NoTies(SampleLess, all)
  {
    hide NeighborId, Values;
    forall a, b | a in all && b in all && a != b ensures SampleLess(a, b) || SampleLess(b, a) {
      SampleCases(a, b);
      if Ties(a, b) {
        var o: Origin :| o in origins && Values(c, o.leaf, o.entry.embedding).Some?
          && a == CandidateFor(c, seed, o.leaf, o.entry);
        var u: Origin :| u in origins && Values(c, u.leaf, u.entry.embedding).Some?
          && b == CandidateFor(c, seed, u.leaf, u.entry);
        IdDeterminesEntry(c, origins, o, u);
      }
    }
  }

  /** The sampled entry is that of some origin: its leaf, its id, and its embedding. */
  ghost predicate IsEntryOf(c: Coding, origins: set<Origin>, e: CorpusLeafEntry) {
    exists o: Origin :: o in origins && e.leaf == o.leaf && e.neighborId == NeighborId(c, o.leaf, o.entry)
      && Values(c, o.leaf, o.entry.embedding) == Some(e.embedding)
  }

  lemma KeptIsEntry(c: Coding, seed: nat, origins: set<Origin>, s: SampleCandidate)
    requires Genuine(c, seed, origins, s)
    ensures s.key == c.key(s.entry.neighborId, seed) && IsEntryOf(c, origins, s.entry)
  {
  }

  /** The sample is determined by which entries there are: two walks that meet the same
      entries in any two orders keep the same sample, for every sample size; and what is
      kept has the smallest keys. */
  lemma SampleIsDetermined(c: Coding, seed: nat, origins: set<Origin>, xs: seq<SampleCandidate>,
                           ys: seq<SampleCandidate>, kept: multiset<SampleCandidate>,
                           kept': multiset<SampleCandidate>, size: nat)
    requires Distinctive(c, origins)
    requires multiset(xs) == multiset(ys) && forall s :: s in xs ==> Genuine(c, seed, origins, s)
    requires Best(SampleLess, kept, multiset(xs), size) && Best(SampleLess, kept', multiset(ys), size)
    ensures kept == kept'
    ensures |kept| == if |xs| <= size then |xs| else size
    ensures forall s, t :: s in kept && t in multiset(xs) - kept ==> !KeyLess(t.key, s.key)
    ensures forall s :: s in kept ==> s.key == c.key(s.entry.neighborId, seed) && IsEntryOf(c, origins, s.entry)
  {
    forall s | s in kept ensures s.key == c.key(s.entry.neighborId, seed) && IsEntryOf(c, origins, s.entry) {
      assert s in multiset(xs) && Genuine(c, seed, origins, s);
      KeptIsEntry(c, seed, origins, s);
    }
    hide Genuine, IsEntryOf;
    GenuineNeverTie(c, seed, origins, multiset(xs));
    UniqueWithoutTies(SampleLess, kept, kept', multiset(xs), size);
    hide NoTies;
    assert |multiset(xs)| == |xs|;
    forall s, t | s in kept && t in multiset(xs) - kept ensures !KeyLess(t.key, s.key) {
      assert !SampleLess(t, s);
    }
  }

  // -------------------------------------------------------- distinctive codings exist

  /** A block id as `n` bytes that tell it from all others below `n`. */
  function Marked(n: nat, b: BlockId): Bytes { seq(n, i => if i == b.digest then 1 else 0) }

  lemma MarkedDiffer(n: nat, a: BlockId, b: BlockId)
    requires a.digest < n && Marked(n, a) == Marked(n, b)
    ensures a == b
  {
    assert Marked(n, a)[a.digest] == 1 == Marked(n, b)[a.digest];
  }

  function Spelled(x: Bytes): string { seq(|x|, i requires 0 <= i < |x| => x[i] as int as char) }

  lemma SpelledDiffer(x: Bytes, y: Bytes)
    requires Spelled(x) == Spelled(y)
    ensures x == y
  {
    assert |Spelled(x)| == |x| && |Spelled(y)| == |y|;
    forall i | 0 <= i < |x| ensures x[i] == y[i] {
      assert Spelled(x)[i] == Spelled(y)[i];
    }
  }

  lemma LeavesAreBounded(origins: set<Origin>) returns (n: nat)
    ensures forall o :: o in origins ==> o.leaf.digest < n
  {
    if origins == {} {
      n := 0;
    } else {
      var o :| o in origins;
      var m := LeavesAreBounded(origins - {o});
      n := if o.leaf.digest < m then m else o.leaf.digest + 1;
      forall u | u in origins ensures u.leaf.digest < n { assert u == o || u in origins - {o}; }
    }
  }

  /** Whatever entries there are, and however keys and embeddings are coded, block ids and
      digests can be coded distinctively. */
  lemma DistinctiveExists(like: Coding, origins: set<Origin>) returns (c: Coding)
    ensures Distinctive(c, origins)
    ensures c == like.(idBytes := c.idBytes, digest := c.digest)
  {
    var n := LeavesAreBounded(origins);
    c := like.(idBytes := b => Marked(n, b), digest := Spelled);
    forall o, u | o in origins && u in origins && c.idBytes(o.leaf) == c.idBytes(u.leaf) ensures o.leaf == u.leaf {
      MarkedDiffer(n, o.leaf, u.leaf);
    }
    forall o, u | o in origins && u in origins && NeighborId(c, o.leaf, o.entry) == NeighborId(c, u.leaf, u.entry)
      ensures Hashed(c, o.leaf, o.entry) == Hashed(c, u.leaf, u.entry)
    {
      SpelledDiffer(Hashed(c, o.leaf, o.entry), Hashed(c, u.leaf, u.entry));
    }
    forall o, u | o in origins && u in origins ensures |c.idBytes(o.leaf)| == |c.idBytes(u.leaf)| {
      assert |c.idBytes(o.leaf)| == n == |c.idBytes(u.leaf)|;
    }
  }

  /** Any entries of two different leaves are accepted, and told apart, under some
      distinctive coding. */
  lemma TwoLeavesExample(o: Origin, u: Origin, seed: nat) returns (c: Coding)
    requires o.leaf != u.leaf
    ensures Distinctive(c, {o, u})
    ensures Values(c, o.leaf, o.entry.embedding).Some? && Values(c, u.leaf, u.entry.embedding).Some?
    ensures CandidateFor(c, seed, o.leaf, o.entry) != CandidateFor(c, seed, u.leaf, u.entry)
  {
    var length := b => Some(if b == o.leaf then |o.entry.embedding| else |u.entry.embedding|);
    c := DistinctiveExists(Coding(b => [], x => "", (id, s) => [], length, (b, x) => Some([]), x => true), {o, u});
  }

  // ------------------------------------------------------------------ collecting it

  /** What the entries of a leaf contribute; an entry without magnitude is left out. */
  function Candidates(c: Coding, seed: nat, leaf: BlockId, entries: seq<RawEntry>): seq<SampleCandidate>
    requires Acceptable(c, leaf, entries)
  {
    if entries == [] then [] else Offer(c, seed, leaf, entries[0]) + Candidates(c, seed, leaf, entries[1..])
  }

  function Offer(c: Coding, seed: nat, leaf: BlockId, e: RawEntry): seq<SampleCandidate>
    requires Values(c, leaf, e.embedding).Some?
  {
    if IsZero(c, leaf, e) then [] else [CandidateFor(c, seed, leaf, e)]
  }

  predicate IsZero(c: Coding, leaf: BlockId, e: RawEntry)
    requires Values(c, leaf, e.embedding).Some?
  {
    !c.hasMagnitude(Values(c, leaf, e.embedding).value)
  }

  predicate Acceptable(c: Coding, leaf: BlockId, entries: seq<RawEntry>) {
    forall i :: 0 <= i < |entries| ==> Values(c, leaf, entries[i].embedding).Some?
  }

  predicate HasZero(c: Coding, leaf: BlockId, entries: seq<RawEntry>)
    requires Acceptable(c, leaf, entries)
  {
    exists i :: 0 <= i < |entries| && IsZero(c, leaf, entries[i])
  }

  lemma {:induction false} CandidatesAppend(c: Coding, seed: nat, leaf: BlockId, entries: seq<RawEntry>, e: RawEntry)
    requires Acceptable(c, leaf, entries) && Values(c, leaf, e.embedding).Some?
    ensures Acceptable(c, leaf, entries + [e])
    ensures Candidates(c, seed, leaf, entries + [e]) == Candidates(c, seed, leaf, entries) + Offer(c, seed, leaf, e)
  {
    if entries == [] {
      assert entries + [e] == [e] && [e][1..] == [];
    } else {
      assert (entries + [e])[1..] == entries[1..] + [e] && (entries + [e])[0] == entries[0];
      CandidatesAppend(c, seed, leaf, entries[1..], e);
    }
  }

  lemma ZeroAppend(c: Coding, leaf: BlockId, entries: seq<RawEntry>, e: RawEntry)
    requires Acceptable(c, leaf, entries) && Values(c, leaf, e.embedding).Some?
    ensures Acceptable(c, leaf, entries + [e])
    ensures HasZero(c, leaf, entries + [e]) <==> HasZero(c, leaf, entries) || IsZero(c, leaf, e)
  {
    var more := entries + [e];
    assert forall i :: 0 <= i < |entries| ==> more[i] == entries[i];
    assert more[|entries|] == e;
  }

  function OriginsOf(leaf: BlockId, entries: seq<RawEntry>): set<Origin> {
    set e | e in entries :: Origin(leaf, e)
  }

  lemma NoOrigins(leaf: BlockId)
    ensures OriginsOf(leaf, []) == {}
  {
  }

  lemma OriginsAppend(leaf: BlockId, entries: seq<RawEntry>, e: RawEntry)
    ensures OriginsOf(leaf, entries + [e]) == OriginsOf(leaf, entries) + {Origin(leaf, e)}
  {
    assert forall x :: x in entries + [e] <==> x in entries || x == e;
  }

  class SampleCollector {
    const coding: Coding
    const seed: nat
    const sampleSize: nat
    var corpusSize: nat
    var sample: multiset<SampleCandidate>
    var hasZeroMagnitude: bool
    ghost var met: seq<SampleCandidate>
    ghost var origins: set<Origin>

    /** The sample holds the best of everything met so far. */
    ghost predicate Valid()
      reads this
    {
      && Best(SampleLess, sample, multiset(met), sampleSize) && corpusSize == |met|
      && forall s :: s in met ==> Genuine(coding, seed, origins, s)
    }

    constructor (coding: Coding, seed: nat, sampleSize: nat)
      ensures Valid() && met == [] && origins == {} && !hasZeroMagnitude
      ensures this.coding == coding && this.seed == seed && this.sampleSize == sampleSize
    {
      this.coding, this.seed, this.sampleSize := coding, seed, sampleSize;
      corpusSize, sample, hasZeroMagnitude, met, origins := 0, multiset{}, false, [], {};
      new;
      StartsBest(SampleLess, sampleSize);
    }

    method Push(candidate: SampleCandidate)
      requires Valid() && Genuine(coding, seed, origins, candidate)
      modifies this
      ensures Valid() && met == old(met) + [candidate] && hasZeroMagnitude == old(hasZeroMagnitude)
      ensures origins == old(origins)
    {
      hide Best, Genuine;
      SampleOrder();
      corpusSize := corpusSize + 1;
      sample := PushBounded(SampleLess, sample, candidate, sampleSize, multiset(met));
      met := met + [candidate];
    }

    method CollectEntry(leaf: BlockId, e: RawEntry)
      requires Valid() && Values(coding, leaf, e.embedding).Some?
      modifies this
      ensures Valid() && met == old(met) + Offer(coding, seed, leaf, e) && origins == old(origins) + {Origin(leaf, e)}
      ensures hasZeroMagnitude == (old(hasZeroMagnitude) || IsZero(coding, leaf, e))
    {
      hide Best, Genuine;
      MoreOrigins(coding, seed, origins, met, Origin(leaf, e));
      origins := origins + {Origin(leaf, e)};
      if coding.hasMagnitude(Values(coding, leaf, e.embedding).value) {
        EntryIsGenuine(coding, seed, origins, leaf, e);
        Push(CandidateFor(coding, seed, leaf, e));
      } else {
        hasZeroMagnitude := true;
      }
    }

    /** Offers the entries of one leaf. An embedding that the leaf's specification does not
        accept ends the assessment. */
    method CollectCorpusEntries(leaf: BlockId, entries: seq<RawEntry>) returns (ok: bool)
      requires Valid()
      modifies this
      ensures Valid()
      ensures ok <==> Acceptable(coding, leaf, entries)
      ensures ok ==> met == old(met) + Candidates(coding, seed, leaf, entries)
      ensures ok ==> origins == old(origins) + OriginsOf(leaf, entries)
      ensures ok ==> hasZeroMagnitude == (old(hasZeroMagnitude) || HasZero(coding, leaf, entries))
    {
      hide Best, Genuine, Offer, IsZero, HasZero, OriginsOf;
      assert OriginsOf(leaf, []) == {} by { NoOrigins(leaf); }
      NoZeroInNothing(coding, leaf);
      for i := 0 to |entries|
        invariant Valid() && Acceptable(coding, leaf, entries[..i])
        invariant met == old(met) + Candidates(coding, seed, leaf, entries[..i])
        invariant origins == old(origins) + OriginsOf(leaf, entries[..i])
        invariant hasZeroMagnitude == (old(hasZeroMagnitude) || HasZero(coding, leaf, entries[..i]))
      {
        var e := entries[i];
        if Values(coding, leaf, e.embedding).None? { return false; }
        assert entries[..i + 1] == entries[..i] + [e];
        CandidatesAppend(coding, seed, leaf, entries[..i], e);
        ZeroAppend(coding, leaf, entries[..i], e);
        OriginsAppend(leaf, entries[..i], e);
        CollectEntry(leaf, e);
      }
      assert entries[..|entries|] == entries;
      return true;
    }
  }

  lemma NoZeroInNothing(c: Coding, leaf: BlockId)
    ensures !HasZero(c, leaf, [])
  {
  }

  lemma EntryIsGenuine(c: Coding, seed: nat, origins: set<Origin>, leaf: BlockId, e: RawEntry)
    requires Origin(leaf, e) in origins && Values(c, leaf, e.embedding).Some?
    ensures Genuine(c, seed, origins, CandidateFor(c, seed, leaf, e))
  {
    var o := Origin(leaf, e);
    assert o in origins && CandidateFor(c, seed, leaf, e) == CandidateFor(c, seed, o.leaf, o.entry);
  }

  lemma MoreOrigins(c: Coding, seed: nat, origins: set<Origin>, met: seq<SampleCandidate>, o: Origin)
    requires forall s :: s in met ==> Genuine(c, seed, origins, s)
    ensures forall s :: s in met ==> Genuine(c, seed, origins + {o}, s)
  {
    hide CandidateFor, Values;
  }
}
