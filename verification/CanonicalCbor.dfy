/** Canonical form of CBOR values: map entries are sorted by their encoded keys, shorter
    encodings first, and a map with two equal keys has no canonical form. */
module CanonicalCbor {
  import opened BlockGraph
  import opened Lexicographic
  import opened Sorting
  import opened Tallies

  /** `Other` stands for the kinds of value the canonical form does not support. */
  datatype Value =
    | Integer(n: int)
    | Bytes(bytes: seq<Byte>)
    | Float(bits: nat)
    | Text(text: string)
    | Bool(flag: bool)
    | Null
    | Tag(tag: nat, nested: Value)
    | Array(values: seq<Value>)
    | Map(entries: seq<Entry>)
    | Other(kind: nat)

  datatype Entry = Entry(key: Value, value: Value)

  datatype Error = DuplicateKeys | Unsupported(value: Value)

  datatype Result<T> = Ok(value: T) | Err(error: Error)

  /** How a value is written as bytes. */
  type Encoder = Value -> seq<Byte>

  // ---------------------------------------------------------------------- key order

  predicate ByteLess(a: Byte, b: Byte) { a < b }

  /** The length-first order of section 4.2.3 of RFC 8949. */
  predicate Precedes(a: seq<Byte>, b: seq<Byte>) {
    |a| < |b| || (|a| == |b| && LexLess(ByteLess, a, b))
  }

  predicate KeyLess(enc: Encoder, a: Entry, b: Entry) { Precedes(enc(a.key), enc(b.key)) }

  function ByKey(enc: Encoder): Order<Entry> { (a, b) => KeyLess(enc, a, b) }

  predicate SameKey(enc: Encoder, a: Entry, b: Entry) { enc(a.key) == enc(b.key) }

  /** Shorter encodings come first; among encodings of one length the first differing byte
      decides. */
  lemma KeyOrderIs(enc: Encoder, a: Entry, b: Entry)
    ensures |enc(a.key)| < |enc(b.key)| ==> KeyLess(enc, a, b)
    ensures |enc(a.key)| == |enc(b.key)| ==>
      (KeyLess(enc, a, b) <==> exists k :: 0 <= k < |enc(a.key)| && FirstDifference(enc(a.key), enc(b.key), k))
  {
    var x, y := enc(a.key), enc(b.key);
    LexLessIff(ByteLess, x, y);
    if |x| == |y| {
      if k: nat :| DecidesAt(ByteLess, x, y, k) { assert FirstDifference(x, y, k); }
      if k :| 0 <= k < |x| && FirstDifference(x, y, k) { assert DecidesAt(ByteLess, x, y, k); }
    }
  }

  predicate FirstDifference(x: seq<Byte>, y: seq<Byte>, k: nat)
    requires k < |x| == |y|
  {
    x[..k] == y[..k] && x[k] < y[k]
  }

  /** The key order is a strict total order on encoded keys. */
  lemma KeyOrder(enc: Encoder, a: Entry, b: Entry, c: Entry)
    ensures KeyLess(enc, a, b) || KeyLess(enc, b, a) || SameKey(enc, a, b)
    ensures !(KeyLess(enc, a, b) && KeyLess(enc, b, a)) && (SameKey(enc, a, b) ==> !KeyLess(enc, a, b))
    ensures KeyLess(enc, a, b) && KeyLess(enc, b, c) ==> KeyLess(enc, a, c)
  {
    var x, y, z := enc(a.key), enc(b.key), enc(c.key);
    LexTotal(ByteLess, x, y);
    if LexLess(ByteLess, x, y) && LexLess(ByteLess, y, z) { LexTransitive(ByteLess, x, y, z); }
  }

  lemma ByKeyIsStrictWeak(enc: Encoder)
    ensures StrictWeak(ByKey(enc))
  {
    forall a, b, c
      ensures ByKey(enc)(a, b) && ByKey(enc)(b, c) ==> ByKey(enc)(a, c)
      ensures ByKey(enc)(a, c) ==> ByKey(enc)(a, b) || ByKey(enc)(b, c)
      ensures !ByKey(enc)(a, a)
    {
      KeyOrder(enc, a, b, c);
      KeyOrder(enc, b, a, c);
      KeyOrder(enc, a, a, a);
    }
  }

  ghost predicate Clash(enc: Encoder, es: seq<Entry>) {
    exists i, j :: 0 <= i < j < |es| && SameKey(enc, es[i], es[j])
  }

  // ------------------------------------------------------------- canonicalization

  predicate AdjacentDuplicate(enc: Encoder, es: seq<Entry>) {
    exists i :: 0 <= i < |es| - 1 && SameKey(enc, es[i], es[i + 1])
  }

  function Canonicalize(enc: Encoder, v: Value): Result<Value> {
    match v
    case Tag(tag, nested) =>
      (match Canonicalize(enc, nested)
       case Ok(inner) => Ok(Tag(tag, inner))
       case Err(error) => Err(error))
    case Array(values) =>
      (match CanonicalizeAll(enc, values)
       case Ok(canonical) => Ok(Array(canonical))
       case Err(error) => Err(error))
    case Map(entries) =>
      (match CanonicalizeEntries(enc, entries)
       case Ok(normalized) =>
         var sorted := Sort(ByKey(enc), normalized);
         if AdjacentDuplicate(enc, sorted) then Err(DuplicateKeys) else Ok(Map(sorted))
       case Err(error) => Err(error))
    case Other(_) => Err(Unsupported(v))
    case _ => Ok(v)
  }

  function CanonicalizeAll(enc: Encoder, values: seq<Value>): Result<seq<Value>> {
    if values == [] then Ok([])
    else match Canonicalize(enc, values[0])
      case Err(error) => Err(error)
      case Ok(first) =>
        match CanonicalizeAll(enc, values[1..])
        case Err(error) => Err(error)
        case Ok(rest) => Ok([first] + rest)
  }

  function CanonicalizeEntry(enc: Encoder, e: Entry): Result<Entry> {
    match Canonicalize(enc, e.key)
    case Err(error) => Err(error)
    case Ok(key) =>
      match Canonicalize(enc, e.value)
      case Err(error) => Err(error)
      case Ok(value) => Ok(Entry(key, value))
  }

  function CanonicalizeEntries(enc: Encoder, entries: seq<Entry>): Result<seq<Entry>> {
    if entries == [] then Ok([])
    else match CanonicalizeEntry(enc, entries[0])
      case Err(error) => Err(error)
      case Ok(first) =>
        match CanonicalizeEntries(enc, entries[1..])
        case Err(error) => Err(error)
        case Ok(rest) => Ok([first] + rest)
  }

  predicate Accepts(enc: Encoder, v: Value) { Canonicalize(enc, v).Ok? }

  predicate AcceptsEntry(enc: Encoder, e: Entry) { Accepts(enc, e.key) && Accepts(enc, e.value) }

  function CanonicalEntry(enc: Encoder, e: Entry): Entry
    requires AcceptsEntry(enc, e)
  {
    Entry(Canonicalize(enc, e.key).value, Canonicalize(enc, e.value).value)
  }

  lemma {:induction false} AllFacts(enc: Encoder, values: seq<Value>)
    ensures CanonicalizeAll(enc, values).Ok? <==> forall i :: 0 <= i < |values| ==> Accepts(enc, values[i])
    ensures CanonicalizeAll(enc, values).Ok? ==>
      var canonical := CanonicalizeAll(enc, values).value;
      |canonical| == |values| && forall i :: 0 <= i < |values| ==> Canonicalize(enc, values[i]) == Ok(canonical[i])
  {
    if values != [] {
      assert values == [values[0]] + values[1..];
      AllFacts(enc, values[1..]);
    }
  }

  lemma {:induction false} EntriesFacts(enc: Encoder, entries: seq<Entry>)
    ensures CanonicalizeEntries(enc, entries).Ok? <==> forall i :: 0 <= i < |entries| ==> AcceptsEntry(enc, entries[i])
    ensures CanonicalizeEntries(enc, entries).Ok? ==>
      var normalized := CanonicalizeEntries(enc, entries).value;
      |normalized| == |entries|
      && forall i :: 0 <= i < |entries| ==>
           AcceptsEntry(enc, entries[i]) && normalized[i] == CanonicalEntry(enc, entries[i])
  {
    if entries != [] {
      assert entries == [entries[0]] + entries[1..];
      EntriesFacts(enc, entries[1..]);
    }
  }

  // ---------------------------------------------------------------- when two keys clash

  /** In a sorted list equal keys are neighbours. */
  lemma ClashIsAdjacent(enc: Encoder, es: seq<Entry>)
    requires Sorted(ByKey(enc), es)
    ensures AdjacentDuplicate(enc, es) <==> Clash(enc, es)
    ensures !AdjacentDuplicate(enc, es) ==> Increasing(ByKey(enc), es)
  {
    if AdjacentDuplicate(enc, es) {
      var i :| 0 <= i < |es| - 1 && SameKey(enc, es[i], es[i + 1]);
      assert 0 <= i < i + 1 < |es| && SameKey(enc, es[i], es[i + 1]);
    } else {
      forall i, j | 0 <= i < j < |es| ensures KeyLess(enc, es[i], es[j]) {
        ClimbsFrom(enc, es, i, j);
      }
      forall i, j | 0 <= i < j < |es| ensures !SameKey(enc, es[i], es[j]) {
        KeyOrder(enc, es[i], es[j], es[j]);
      }
    }
  }

  lemma {:induction false} ClimbsFrom(enc: Encoder, es: seq<Entry>, i: nat, j: nat)
    requires Sorted(ByKey(enc), es) && !AdjacentDuplicate(enc, es) && i < j < |es|
    ensures KeyLess(enc, es[i], es[j])
  {
    KeyOrder(enc, es[j - 1], es[j], es[j]);
    assert !SameKey(enc, es[j - 1], es[j - 1 + 1]);
    if i < j - 1 {
      ClimbsFrom(enc, es, i, j - 1);
      KeyOrder(enc, es[i], es[j - 1], es[j]);
    }
  }

  /** Sorting neither makes nor removes a clash. */
  lemma SortKeepsClash(enc: Encoder, es: seq<Entry>)
    ensures Clash(enc, Sort(ByKey(enc), es)) <==> Clash(enc, es)
  {
    ByKeyIsStrictWeak(enc);
    SortSorts(ByKey(enc), es);
    if Clash(enc, es) { ClashInBag(enc, es, Sort(ByKey(enc), es)); }
    if Clash(enc, Sort(ByKey(enc), es)) { ClashInBag(enc, Sort(ByKey(enc), es), es); }
  }

  lemma ClashInBag(enc: Encoder, a: seq<Entry>, b: seq<Entry>)
    requires multiset(a) == multiset(b) && Clash(enc, a)
    ensures Clash(enc, b)
  {
    var i, j :| 0 <= i < j < |a| && SameKey(enc, a[i], a[j]);
    var k, l := TwoInOther(a, b, i, j);
    if k < l { assert SameKey(enc, b[k], b[l]); } else { assert SameKey(enc, b[l], b[k]); }
  }

  /** Somewhere inside the value is a map two of whose canonical keys are written alike. */
  ghost predicate HasClash(enc: Encoder, v: Value) {
    match v
    case Tag(_, nested) => HasClash(enc, nested)
    case Array(values) => exists i :: 0 <= i < |values| && HasClash(enc, values[i])
    case Map(entries) =>
      || (exists i :: 0 <= i < |entries| && (HasClash(enc, entries[i].key) || HasClash(enc, entries[i].value)))
      || (exists i, j :: 0 <= i < j < |entries| && ClashingKeys(enc, entries[i].key, entries[j].key))
    case _ => false
  }

  predicate ClashingKeys(enc: Encoder, a: Value, b: Value) {
    Accepts(enc, a) && Accepts(enc, b) && enc(Canonicalize(enc, a).value) == enc(Canonicalize(enc, b).value)
  }

  ghost predicate Supported(v: Value) {
    match v
    case Tag(_, nested) => Supported(nested)
    case Array(values) => forall i :: 0 <= i < |values| ==> Supported(values[i])
    case Map(entries) => forall i :: 0 <= i < |entries| ==> Supported(entries[i].key) && Supported(entries[i].value)
    case Other(_) => false
    case _ => true
  }

  /** A value is accepted if and only if everything in it is supported and no two keys
      clash at any level. */
  lemma {:induction false} AcceptedIff(enc: Encoder, v: Value)
    ensures Accepts(enc, v) <==> Supported(v) && !HasClash(enc, v)
    decreases v
  {
    match v
    case Tag(_, nested) => AcceptedIff(enc, nested);
    case Array(values) =>
      AllFacts(enc, values);
      forall i | 0 <= i < |values|
        ensures Accepts(enc, values[i]) <==> Supported(values[i]) && !HasClash(enc, values[i])
      {
        AcceptedIff(enc, values[i]);
      }
    case Map(entries) =>
      forall i | 0 <= i < |entries|
        ensures AcceptsEntry(enc, entries[i]) <==> EntrySupported(entries[i]) && !EntryClashes(enc, entries[i])
      {
        AcceptedIff(enc, entries[i].key);
        AcceptedIff(enc, entries[i].value);
      }
      MapAcceptedIff(enc, entries);
    case _ =>
  }

  /** A map's canonical form has as many entries as the map. */
  lemma MapKeepsCount(enc: Encoder, entries: seq<Entry>)
    requires Canonicalize(enc, Map(entries)).Ok?
    ensures var v := Canonicalize(enc, Map(entries)).value; v.Map? && |v.entries| == |entries|
  {
    hide AcceptsEntry, CanonicalEntry, AdjacentDuplicate, KeyLess;
    EntriesFacts(enc, entries);
    ByKeyIsStrictWeak(enc);
    var normalized := CanonicalizeEntries(enc, entries).value;
    SortSorts(ByKey(enc), normalized);
    assert |multiset(Sort(ByKey(enc), normalized))| == |multiset(normalized)|;
  }

  /** A value is refused for what is the matter with it. */
  lemma {:induction false} RefusedFor(enc: Encoder, v: Value)
    ensures Canonicalize(enc, v) == Err(DuplicateKeys) ==> HasClash(enc, v)
    ensures Canonicalize(enc, v).Err? && Canonicalize(enc, v).error.Unsupported? ==>
      !Supported(v) && Canonicalize(enc, v).error.value.Other?
    decreases v
  {
    match v
    case Tag(_, nested) => RefusedFor(enc, nested);
    case Array(values) =>
      forall i | 0 <= i < |values|
        ensures Canonicalize(enc, values[i]) == Err(DuplicateKeys) ==> HasClash(enc, values[i])
        ensures Canonicalize(enc, values[i]).Err? && Canonicalize(enc, values[i]).error.Unsupported? ==>
          !Supported(values[i]) && Canonicalize(enc, values[i]).error.value.Other?
      {
        RefusedFor(enc, values[i]);
      }
      if CanonicalizeAll(enc, values).Err? { FirstRefusal(enc, values); }
    case Map(entries) =>
      forall i | 0 <= i < |entries| ensures EntryRefused(enc, entries[i]) {
        RefusedFor(enc, entries[i].key);
        RefusedFor(enc, entries[i].value);
      }
      if CanonicalizeEntries(enc, entries).Err? {
        FirstEntryRefusal(enc, entries);
      } else {
        AcceptedIff(enc, v);
        EntriesFacts(enc, entries);
        EntriesSupported(enc, entries);
      }
    case _ =>
  }

  lemma EntriesSupported(enc: Encoder, entries: seq<Entry>)
    requires forall i :: 0 <= i < |entries| ==> AcceptsEntry(enc, entries[i])
    ensures Supported(Map(entries))
  {
    forall i | 0 <= i < |entries| ensures Supported(entries[i].key) && Supported(entries[i].value) {
      AcceptedIff(enc, entries[i].key);
      AcceptedIff(enc, entries[i].value);
    }
  }

  ghost predicate EntryRefused(enc: Encoder, e: Entry) {
    && (CanonicalizeEntry(enc, e) == Err(DuplicateKeys) ==> EntryClashes(enc, e))
    && (CanonicalizeEntry(enc, e).Err? && CanonicalizeEntry(enc, e).error.Unsupported? ==>
          !EntrySupported(e) && CanonicalizeEntry(enc, e).error.value.Other?)
  }

  lemma {:induction false} FirstRefusal(enc: Encoder, values: seq<Value>)
    requires CanonicalizeAll(enc, values).Err?
    ensures exists i :: 0 <= i < |values| && Canonicalize(enc, values[i]) == Err(CanonicalizeAll(enc, values).error)
  {
    if Canonicalize(enc, values[0]).Ok? {
      FirstRefusal(enc, values[1..]);
      var error := CanonicalizeAll(enc, values[1..]).error;
      var i :| 0 <= i < |values[1..]| && Canonicalize(enc, values[1..][i]) == Err(error);
      assert values[i + 1] == values[1..][i];
    }
  }

  lemma {:induction false} FirstEntryRefusal(enc: Encoder, entries: seq<Entry>)
    requires CanonicalizeEntries(enc, entries).Err?
    ensures exists i ::
      0 <= i < |entries| && CanonicalizeEntry(enc, entries[i]) == Err(CanonicalizeEntries(enc, entries).error)
  {
    if CanonicalizeEntry(enc, entries[0]).Ok? {
      FirstEntryRefusal(enc, entries[1..]);
      var i :| 0 <= i < |entries[1..]| &&
        CanonicalizeEntry(enc, entries[1..][i]) == Err(CanonicalizeEntries(enc, entries[1..]).error);
      assert entries[i + 1] == entries[1..][i];
    }
  }

  ghost predicate EntrySupported(e: Entry) { Supported(e.key) && Supported(e.value) }

  ghost predicate EntryClashes(enc: Encoder, e: Entry) { HasClash(enc, e.key) || HasClash(enc, e.value) }

  lemma MapAcceptedIff(enc: Encoder, entries: seq<Entry>)
    requires forall i :: 0 <= i < |entries| ==>
      (AcceptsEntry(enc, entries[i]) <==> EntrySupported(entries[i]) && !EntryClashes(enc, entries[i]))
    ensures Accepts(enc, Map(entries)) <==> Supported(Map(entries)) && !HasClash(enc, Map(entries))
  {
    EntriesFacts(enc, entries);
    MapIsAccepted(enc, entries);
    var all := forall i :: 0 <= i < |entries| ==> AcceptsEntry(enc, entries[i]);
    hide Canonicalize, Accepts;
    if all {
      forall i | 0 <= i < |entries| ensures EntrySupported(entries[i]) && !EntryClashes(enc, entries[i]) {
        assert AcceptsEntry(enc, entries[i]);
      }
    } else {
      var i :| 0 <= i < |entries| && !AcceptsEntry(enc, entries[i]);
      assert !EntrySupported(entries[i]) || EntryClashes(enc, entries[i]);
    }
  }

  ghost predicate KeysClash(enc: Encoder, entries: seq<Entry>) {
    exists i, j :: 0 <= i < j < |entries| && ClashingKeys(enc, entries[i].key, entries[j].key)
  }

  lemma MapIsAccepted(enc: Encoder, entries: seq<Entry>)
    ensures Accepts(enc, Map(entries)) <==>
      (forall i :: 0 <= i < |entries| ==> AcceptsEntry(enc, entries[i])) && !KeysClash(enc, entries)
  {
    EntriesFacts(enc, entries);
    if CanonicalizeEntries(enc, entries).Ok? {
      var normalized := CanonicalizeEntries(enc, entries).value;
      ByKeyIsStrictWeak(enc);
      SortSorts(ByKey(enc), normalized);
      ClashIsAdjacent(enc, Sort(ByKey(enc), normalized));
      SortKeepsClash(enc, normalized);
      assert Clash(enc, normalized) <==> KeysClash(enc, entries) by { SameClash(enc, entries, normalized); }
    }
  }

  lemma SameClash(enc: Encoder, entries: seq<Entry>, normalized: seq<Entry>)
    requires |normalized| == |entries|
    requires forall i :: 0 <= i < |entries| ==>
      AcceptsEntry(enc, entries[i]) && normalized[i] == CanonicalEntry(enc, entries[i])
    ensures Clash(enc, normalized) <==> KeysClash(enc, entries)
  {
    hide Canonicalize;
    forall i, j | 0 <= i < j < |entries|
      ensures SameKey(enc, normalized[i], normalized[j]) <==> ClashingKeys(enc, entries[i].key, entries[j].key)
    {
      assert AcceptsEntry(enc, entries[i]) && AcceptsEntry(enc, entries[j]);
    }
    if Clash(enc, normalized) {
      var i, j :| 0 <= i < j < |normalized| && SameKey(enc, normalized[i], normalized[j]);
      assert ClashingKeys(enc, entries[i].key, entries[j].key);
    }
    if KeysClash(enc, entries) {
      var i, j :| 0 <= i < j < |entries| && ClashingKeys(enc, entries[i].key, entries[j].key);
      assert SameKey(enc, normalized[i], normalized[j]);
    }
  }

  // ------------------------------------------------------------------ canonical values

  /** Supported throughout, and every map strictly increasing in the key order. */
  ghost predicate IsCanonical(enc: Encoder, v: Value) {
    match v
    case Tag(_, nested) => IsCanonical(enc, nested)
    case Array(values) => forall i :: 0 <= i < |values| ==> IsCanonical(enc, values[i])
    case Map(entries) =>
      Increasing(ByKey(enc), entries) && forall i :: 0 <= i < |entries| ==>
        IsCanonical(enc, entries[i].key) && IsCanonical(enc, entries[i].value)
    case Other(_) => false
    case _ => true
  }

  /** What canonicalization returns is canonical. */
  lemma {:induction false} ResultIsCanonical(enc: Encoder, v: Value)
    requires Accepts(enc, v)
    ensures IsCanonical(enc, Canonicalize(enc, v).value)
    decreases v
  {
    match v
    case Tag(_, nested) => ResultIsCanonical(enc, nested);
    case Array(values) =>
      AllFacts(enc, values);
      forall i | 0 <= i < |values| ensures IsCanonical(enc, Canonicalize(enc, values[i]).value) {
        assert Accepts(enc, values[i]);
        ResultIsCanonical(enc, values[i]);
      }
    case Map(entries) =>
      EntriesFacts(enc, entries);
      forall i | 0 <= i < |entries|
        ensures AcceptsEntry(enc, entries[i]) && EntryIsCanonical(enc, CanonicalEntry(enc, entries[i]))
      {
        assert AcceptsEntry(enc, entries[i]);
        ResultIsCanonical(enc, entries[i].key);
        ResultIsCanonical(enc, entries[i].value);
      }
      SortedIsCanonical(enc, CanonicalizeEntries(enc, entries).value);
    case _ =>
  }

  ghost predicate EntryIsCanonical(enc: Encoder, e: Entry) { IsCanonical(enc, e.key) && IsCanonical(enc, e.value) }

  lemma SortedIsCanonical(enc: Encoder, es: seq<Entry>)
    requires forall i :: 0 <= i < |es| ==> EntryIsCanonical(enc, es[i])
    requires !AdjacentDuplicate(enc, Sort(ByKey(enc), es))
    ensures IsCanonical(enc, Map(Sort(ByKey(enc), es)))
  {
    var sorted := Sort(ByKey(enc), es);
    ByKeyIsStrictWeak(enc);
    SortSorts(ByKey(enc), es);
    ClashIsAdjacent(enc, sorted);
    forall i | 0 <= i < |sorted| ensures EntryIsCanonical(enc, sorted[i]) {
      assert sorted[i] in multiset(es);
    }
    hide Sort;
    forall i | 0 <= i < |sorted| ensures IsCanonical(enc, sorted[i].key) && IsCanonical(enc, sorted[i].value) {
      assert EntryIsCanonical(enc, sorted[i]);
    }
  }

  /** A canonical value is left as it is. */
  lemma {:induction false} CanonicalIsFixed(enc: Encoder, v: Value)
    requires IsCanonical(enc, v)
    ensures Canonicalize(enc, v) == Ok(v)
    decreases v
  {
    match v
    case Tag(_, nested) => CanonicalIsFixed(enc, nested);
    case Array(values) =>
      forall i | 0 <= i < |values|
        ensures Canonicalize(enc, values[i]) == Ok(values[i])
      {
        CanonicalIsFixed(enc, values[i]);
      }
      AllFacts(enc, values);
      forall i | 0 <= i < |values| ensures Accepts(enc, values[i]) { }
      assert CanonicalizeAll(enc, values).value == values;
    case Map(entries) =>
      forall i | 0 <= i < |entries|
        ensures AcceptsEntry(enc, entries[i]) && CanonicalEntry(enc, entries[i]) == entries[i]
      {
        CanonicalIsFixed(enc, entries[i].key);
        CanonicalIsFixed(enc, entries[i].value);
      }
      MapIsFixed(enc, entries);
    case _ =>
  }

  lemma MapIsFixed(enc: Encoder, entries: seq<Entry>)
    requires Increasing(ByKey(enc), entries)
    requires forall i :: 0 <= i < |entries| ==>
      AcceptsEntry(enc, entries[i]) && CanonicalEntry(enc, entries[i]) == entries[i]
    ensures Canonicalize(enc, Map(entries)) == Ok(Map(entries))
  {
    EntriesFacts(enc, entries);
    assert CanonicalizeEntries(enc, entries).value == entries;
    ByKeyIsStrictWeak(enc);
    SortOfIncreasing(ByKey(enc), entries);
    forall i | 0 <= i < |entries| - 1 ensures !SameKey(enc, entries[i], entries[i + 1]) {
      assert KeyLess(enc, entries[i], entries[i + 1]);
      KeyOrder(enc, entries[i], entries[i + 1], entries[i]);
    }
  }

  /** Canonicalizing twice is canonicalizing once. */
  lemma Idempotent(enc: Encoder, v: Value)
    requires Accepts(enc, v)
    ensures Canonicalize(enc, Canonicalize(enc, v).value) == Canonicalize(enc, v)
  {
    ResultIsCanonical(enc, v);
    CanonicalIsFixed(enc, Canonicalize(enc, v).value);
  }

  // --------------------------------------------------------- the order of map entries

  /** A one-to-one matching of positions, with its inverse. */
  datatype Matching = Matching(to: seq<nat>, from: seq<nat>)

  predicate Matches(m: Matching, n: nat) {
    && |m.to| == n && |m.from| == n
    && forall i :: 0 <= i < n ==> m.to[i] < n && m.from[i] < n && m.from[m.to[i]] == i && m.to[m.from[i]] == i
  }

  /** The two values differ at most in the order of map entries, at any depth. */
  ghost predicate SameUpToOrder(v: Value, w: Value)
    decreases v
  {
    match v
    case Tag(tag, nested) => w.Tag? && w.tag == tag && SameUpToOrder(nested, w.nested)
    case Array(values) =>
      w.Array? && |w.values| == |values| && forall i :: 0 <= i < |values| ==> SameUpToOrder(values[i], w.values[i])
    case Map(entries) =>
      w.Map? && |w.entries| == |entries| && exists m :: Matches(m, |entries|) && SameEntries(entries, w.entries, m)
    case _ => v == w
  }

  ghost predicate SameEntries(es: seq<Entry>, fs: seq<Entry>, m: Matching)
    requires |es| == |fs| && Matches(m, |es|)
    decreases es
  {
    forall i :: 0 <= i < |es| ==> SameEntry(es[i], fs[m.to[i]])
  }

  ghost predicate SameEntry(e: Entry, f: Entry)
    decreases e
  {
    SameUpToOrder(e.key, f.key) && SameUpToOrder(e.value, f.value)
  }

  lemma MatchedMembers(a: seq<Entry>, b: seq<Entry>, m: Matching)
    requires |a| == |b| && Matches(m, |a|) && forall i :: 0 <= i < |a| ==> b[m.to[i]] == a[i]
    ensures forall e :: e in a <==> e in b
  {
    forall e | e in a ensures e in b {
      var i :| 0 <= i < |a| && a[i] == e;
      assert b[m.to[i]] == e;
    }
    forall e | e in b ensures e in a {
      var j :| 0 <= j < |b| && b[j] == e;
      assert b[m.to[m.from[j]]] == a[m.from[j]];
    }
  }

  lemma MatchedClash(enc: Encoder, a: seq<Entry>, b: seq<Entry>, m: Matching)
    requires |a| == |b| && Matches(m, |a|) && (forall i :: 0 <= i < |a| ==> b[m.to[i]] == a[i]) && Clash(enc, a)
    ensures Clash(enc, b)
  {
    var i, j :| 0 <= i < j < |a| && SameKey(enc, a[i], a[j]);
    var k, l := m.to[i], m.to[j];
    assert b[k] == a[i] && b[l] == a[j] && m.from[k] == i && m.from[l] == j;
    if k < l { assert SameKey(enc, b[k], b[l]); } else { assert SameKey(enc, b[l], b[k]); }
  }

  function Inverse(m: Matching): Matching { Matching(m.from, m.to) }

  lemma MatchedBackwards(a: seq<Entry>, b: seq<Entry>, m: Matching)
    requires |a| == |b| && Matches(m, |a|) && forall i :: 0 <= i < |a| ==> b[m.to[i]] == a[i]
    ensures Matches(Inverse(m), |b|) && forall j :: 0 <= j < |b| ==> a[m.from[j]] == b[j]
  {
    forall j | 0 <= j < |b| ensures a[m.from[j]] == b[j] {
      assert b[m.to[m.from[j]]] == a[m.from[j]];
    }
  }

  /** Two lists of canonical entries that match are accepted together and sort alike. */
  lemma MatchedSortAlike(enc: Encoder, a: seq<Entry>, b: seq<Entry>, m: Matching)
    requires |a| == |b| && Matches(m, |a|) && forall i :: 0 <= i < |a| ==> b[m.to[i]] == a[i]
    ensures AdjacentDuplicate(enc, Sort(ByKey(enc), a)) <==> AdjacentDuplicate(enc, Sort(ByKey(enc), b))
    ensures !AdjacentDuplicate(enc, Sort(ByKey(enc), a)) ==> Sort(ByKey(enc), a) == Sort(ByKey(enc), b)
  {
    hide Sort, SameKey, KeyLess, AdjacentDuplicate;
    ByKeyIsStrictWeak(enc);
    SortSorts(ByKey(enc), a);
    ByKeyIsStrictWeak(enc);
    SortSorts(ByKey(enc), b);
    ClashIsAdjacent(enc, Sort(ByKey(enc), a));
    ClashIsAdjacent(enc, Sort(ByKey(enc), b));
    SortKeepsClash(enc, a);
    SortKeepsClash(enc, b);
    MatchedBackwards(a, b, m);
    if Clash(enc, a) { MatchedClash(enc, a, b, m); }
    if Clash(enc, b) { MatchedClash(enc, b, a, Inverse(m)); }
    if !AdjacentDuplicate(enc, Sort(ByKey(enc), a)) {
      MatchedMembers(a, b, m);
      ByKeyIsStrictWeak(enc);
      SortedMembers(ByKey(enc), a);
      ByKeyIsStrictWeak(enc);
      SortedMembers(ByKey(enc), b);
      IncreasingIsUnique(ByKey(enc), Sort(ByKey(enc), a), Sort(ByKey(enc), b));
    }
  }

  /** Values that differ only in the order of map entries have the same canonical form,
      and either both have one or neither has. */
  lemma {:induction false} OrderIsIrrelevant(enc: Encoder, v: Value, w: Value)
    requires SameUpToOrder(v, w)
    ensures Accepts(enc, v) <==> Accepts(enc, w)
    ensures Accepts(enc, v) ==> Canonicalize(enc, v) == Canonicalize(enc, w)
    decreases v
  {
    match v
    case Tag(_, nested) => OrderIsIrrelevant(enc, nested, w.nested);
    case Array(values) =>
      forall i | 0 <= i < |values| ensures AlikeFor(enc, values[i], w.values[i]) {
        OrderIsIrrelevant(enc, values[i], w.values[i]);
      }
      ArraysAlike(enc, values, w.values);
    case Map(entries) =>
      var m :| Matches(m, |entries|) && SameEntries(entries, w.entries, m);
      forall i | 0 <= i < |entries| ensures EntriesAlikeFor(enc, entries[i], w.entries[m.to[i]]) {
        assert SameEntry(entries[i], w.entries[m.to[i]]);
        OrderIsIrrelevant(enc, entries[i].key, w.entries[m.to[i]].key);
        OrderIsIrrelevant(enc, entries[i].value, w.entries[m.to[i]].value);
      }
      MapsAlike(enc, entries, w.entries, m);
    case _ =>
  }

  predicate AlikeFor(enc: Encoder, v: Value, w: Value) {
    (Accepts(enc, v) <==> Accepts(enc, w)) && (Accepts(enc, v) ==> Canonicalize(enc, v) == Canonicalize(enc, w))
  }

  predicate EntriesAlikeFor(enc: Encoder, e: Entry, f: Entry) {
    AlikeFor(enc, e.key, f.key) && AlikeFor(enc, e.value, f.value)
  }

  lemma ArraysAlike(enc: Encoder, vs: seq<Value>, ws: seq<Value>)
    requires |vs| == |ws| && forall i :: 0 <= i < |vs| ==> AlikeFor(enc, vs[i], ws[i])
    ensures AlikeFor(enc, Array(vs), Array(ws))
  {
    AllFacts(enc, vs);
    AllFacts(enc, ws);
    assert forall i :: 0 <= i < |vs| ==> (Accepts(enc, vs[i]) <==> Accepts(enc, ws[i]));
    if CanonicalizeAll(enc, vs).Ok? {
      assert CanonicalizeAll(enc, vs).value == CanonicalizeAll(enc, ws).value;
    }
  }

  lemma MapsAlike(enc: Encoder, es: seq<Entry>, fs: seq<Entry>, m: Matching)
    requires |es| == |fs| && Matches(m, |es|) && forall i :: 0 <= i < |es| ==> EntriesAlikeFor(enc, es[i], fs[m.to[i]])
    ensures AlikeFor(enc, Map(es), Map(fs))
  {
    EntriesFacts(enc, es);
    EntriesFacts(enc, fs);
    AcceptedTogether(enc, es, fs, m);
    if CanonicalizeEntries(enc, es).Ok? {
      var a, b := CanonicalizeEntries(enc, es).value, CanonicalizeEntries(enc, fs).value;
      forall i | 0 <= i < |a| ensures b[m.to[i]] == a[i] {
        assert EntriesAlikeFor(enc, es[i], fs[m.to[i]]) && AcceptsEntry(enc, es[i]) && AcceptsEntry(enc, fs[m.to[i]]);
      }
      MatchedSortAlike(enc, a, b, m);
    }
  }

  lemma AcceptedTogether(enc: Encoder, es: seq<Entry>, fs: seq<Entry>, m: Matching)
    requires |es| == |fs| && Matches(m, |es|) && forall i :: 0 <= i < |es| ==> EntriesAlikeFor(enc, es[i], fs[m.to[i]])
    ensures (forall i :: 0 <= i < |es| ==> AcceptsEntry(enc, es[i])) <==>
      (forall i :: 0 <= i < |fs| ==> AcceptsEntry(enc, fs[i]))
  {
    hide Canonicalize, Accepts;
    forall i | 0 <= i < |es| ensures AcceptsEntry(enc, es[i]) <==> AcceptsEntry(enc, fs[m.to[i]]) {
      assert EntriesAlikeFor(enc, es[i], fs[m.to[i]]);
    }
    if forall i :: 0 <= i < |es| ==> AcceptsEntry(enc, es[i]) {
      forall j | 0 <= j < |fs| ensures AcceptsEntry(enc, fs[j]) {
        assert AcceptsEntry(enc, es[m.from[j]]) && m.to[m.from[j]] == j;
      }
    }
    if forall i :: 0 <= i < |fs| ==> AcceptsEntry(enc, fs[i]) {
      forall i | 0 <= i < |es| ensures AcceptsEntry(enc, es[i]) {
        assert AcceptsEntry(enc, fs[m.to[i]]);
      }
    }
  }

  // ------------------------------------------------------------- the meaning is kept

  lemma {:induction false} SameSymmetric(v: Value, w: Value)
    requires SameUpToOrder(v, w)
    ensures SameUpToOrder(w, v)
    decreases v
  {
    match v
    case Tag(_, nested) => SameSymmetric(nested, w.nested);
    case Array(values) =>
      forall i | 0 <= i < |values|
        ensures SameUpToOrder(w.values[i], values[i])
      {
        SameSymmetric(values[i], w.values[i]);
      }
    case Map(entries) =>
      var m :| Matches(m, |entries|) && SameEntries(entries, w.entries, m);
      var back := Inverse(m);
      assert Matches(back, |entries|);
      forall j | 0 <= j < |entries| ensures SameEntry(w.entries[j], entries[back.to[j]]) {
        var i := m.from[j];
        assert SameEntry(entries[i], w.entries[m.to[i]]);
        SameSymmetric(entries[i].key, w.entries[j].key);
        SameSymmetric(entries[i].value, w.entries[j].value);
      }
      assert SameEntries(w.entries, entries, back);
    case _ =>
  }

  lemma {:induction false} SameTransitive(u: Value, v: Value, w: Value)
    requires SameUpToOrder(u, v) && SameUpToOrder(v, w)
    ensures SameUpToOrder(u, w)
    decreases u
  {
    match u
    case Tag(_, nested) => SameTransitive(nested, v.nested, w.nested);
    case Array(values) =>
      forall i | 0 <= i < |values|
        ensures SameUpToOrder(values[i], w.values[i])
      {
        SameTransitive(values[i], v.values[i], w.values[i]);
      }
    case Map(entries) =>
      var n := |entries|;
      var m :| Matches(m, n) && SameEntries(entries, v.entries, m);
      var k :| Matches(k, n) && SameEntries(v.entries, w.entries, k);
      var both := Compose(m, k, n);
      ComposeMatches(m, k, n);
      hide SameUpToOrder, Compose;
      forall i | 0 <= i < n ensures SameEntry(entries[i], w.entries[both.to[i]]) {
        assert SameEntry(entries[i], v.entries[m.to[i]]) && SameEntry(v.entries[m.to[i]], w.entries[k.to[m.to[i]]]);
        SameTransitive(entries[i].key, v.entries[m.to[i]].key, w.entries[both.to[i]].key);
        SameTransitive(entries[i].value, v.entries[m.to[i]].value, w.entries[both.to[i]].value);
      }
      assert SameEntries(entries, w.entries, both);
      SameMaps(entries, w.entries, both);
    case _ =>
  }

  function Compose(m: Matching, k: Matching, n: nat): Matching
    requires Matches(m, n) && Matches(k, n)
  {
    Matching(seq(n, i requires 0 <= i < n => k.to[m.to[i]]), seq(n, i requires 0 <= i < n => m.from[k.from[i]]))
  }

  lemma ComposeMatches(m: Matching, k: Matching, n: nat)
    requires Matches(m, n) && Matches(k, n)
    ensures Matches(Compose(m, k, n), n) && forall i :: 0 <= i < n ==> Compose(m, k, n).to[i] == k.to[m.to[i]]
  {
  }

  lemma SameBagSameSize(a: seq<Entry>, b: seq<Entry>)
    requires multiset(a) == multiset(b)
    ensures |a| == |b|
  {
    assert |multiset(a)| == |a| && |multiset(b)| == |b|;
  }

  /** Lists with the same members, each as often, can be matched. */
  lemma {:induction false} MatchingExists(a: seq<Entry>, b: seq<Entry>) returns (m: Matching)
    requires multiset(a) == multiset(b)
    ensures |a| == |b| && Matches(m, |a|) && forall i :: 0 <= i < |a| ==> b[m.to[i]] == a[i]
    decreases |a|
  {
    SameBagSameSize(a, b);
    if a == [] {
      m := Matching([], []);
    } else {
      var k := FirstInOther(a, b);
      var r := MatchingExists(a[1..], b[..k] + b[k + 1..]);
      m := Widen(r, k, |a|);
      WidenMatches(r, k, |a|);
      WidenPoints(a, b, r, k);
    }
  }

  lemma WidenPoints(a: seq<Entry>, b: seq<Entry>, r: Matching, k: nat)
    requires a != [] && |a| == |b| && k < |b| && b[k] == a[0] && Matches(r, |a| - 1)
    requires forall i :: 0 <= i < |a| - 1 ==> (b[..k] + b[k + 1..])[r.to[i]] == a[1..][i]
    ensures Matches(Widen(r, k, |a|), |a|) && forall i :: 0 <= i < |a| ==> b[Widen(r, k, |a|).to[i]] == a[i]
  {
    WidenMatches(r, k, |a|);
    forall i | 0 <= i < |a| ensures b[Widen(r, k, |a|).to[i]] == a[i] {
      if i > 0 { assert (b[..k] + b[k + 1..])[r.to[i - 1]] == a[1..][i - 1]; }
    }
  }

  function Widen(r: Matching, k: nat, n: nat): Matching
    requires k < n && Matches(r, n - 1)
  {
    Matching(seq(n, i requires 0 <= i < n =>
                      if i == 0 then k else if r.to[i - 1] < k then r.to[i - 1] else r.to[i - 1] + 1),
             seq(n, j requires 0 <= j < n => if j == k then 0 else if j < k then r.from[j] + 1 else r.from[j - 1] + 1))
  }

  lemma WidenMatches(r: Matching, k: nat, n: nat)
    requires k < n && Matches(r, n - 1)
    ensures Matches(Widen(r, k, n), n)
  {
    var m := Widen(r, k, n);
    forall i | 0 <= i < n ensures m.to[i] < n && m.from[m.to[i]] == i {
      if i > 0 { assert r.from[r.to[i - 1]] == i - 1; }
    }
    forall j | 0 <= j < n ensures m.from[j] < n && m.to[m.from[j]] == j {
      if j < k { assert r.to[r.from[j]] == j; } else if j > k { assert r.to[r.from[j - 1]] == j - 1; }
    }
  }

  /** Canonicalization only reorders map entries. */
  lemma {:induction false} OnlyReorders(enc: Encoder, v: Value)
    requires Accepts(enc, v)
    ensures SameUpToOrder(v, Canonicalize(enc, v).value)
    decreases v
  {
    match v
    case Tag(_, nested) => OnlyReorders(enc, nested);
    case Array(values) =>
      AllFacts(enc, values);
      forall i | 0 <= i < |values| ensures SameUpToOrder(values[i], CanonicalizeAll(enc, values).value[i]) {
        assert Accepts(enc, values[i]);
        OnlyReorders(enc, values[i]);
      }
    case Map(entries) =>
      EntriesFacts(enc, entries);
      forall i | 0 <= i < |entries|
        ensures AcceptsEntry(enc, entries[i]) && SameEntry(entries[i], CanonicalEntry(enc, entries[i]))
      {
        assert AcceptsEntry(enc, entries[i]);
        OnlyReorders(enc, entries[i].key);
        OnlyReorders(enc, entries[i].value);
      }
      SortOnlyReorders(enc, entries, CanonicalizeEntries(enc, entries).value);
    case _ =>
  }

  lemma SortOnlyReorders(enc: Encoder, es: seq<Entry>, normalized: seq<Entry>)
    requires |normalized| == |es| && forall i :: 0 <= i < |es| ==> SameEntry(es[i], normalized[i])
    ensures SameUpToOrder(Map(es), Map(Sort(ByKey(enc), normalized)))
  {
    ByKeyIsStrictWeak(enc);
    SortSorts(ByKey(enc), normalized);
    var sorted := Sort(ByKey(enc), normalized);
    var m := MatchingExists(normalized, sorted);
    hide SameEntry, Sort, SameUpToOrder;
    forall i | 0 <= i < |es| ensures SameEntry(es[i], sorted[m.to[i]]) {
      assert SameEntry(es[i], normalized[i]);
    }
    assert SameEntries(es, sorted, m);
    SameMaps(es, sorted, m);
  }

  lemma SameMaps(es: seq<Entry>, fs: seq<Entry>, m: Matching)
    requires |es| == |fs| && Matches(m, |es|) && SameEntries(es, fs, m)
    ensures SameUpToOrder(Map(es), Map(fs))
  {
  }

  /** Two accepted values have the same canonical form if and only if they differ at most
      in the order of map entries. */
  lemma SameFormIffSameValue(enc: Encoder, v: Value, w: Value)
    requires Accepts(enc, v) && Accepts(enc, w)
    ensures Canonicalize(enc, v) == Canonicalize(enc, w) <==> SameUpToOrder(v, w)
  {
    if SameUpToOrder(v, w) {
      OrderIsIrrelevant(enc, v, w);
    } else if Canonicalize(enc, v) == Canonicalize(enc, w) {
      var form := Canonicalize(enc, v).value;
      OnlyReorders(enc, v);
      OnlyReorders(enc, w);
      SameSymmetric(w, form);
      SameTransitive(v, form, w);
    }
  }
}
