/** Normalized e-mail artifacts: what indexing a mailbox stores and refers to, and how a
    reference is resolved back to a chunk, with and without the cache. */
module EmailArtifacts {
  import opened Options
  import opened BlockGraph
  import opened CanonicalCbor
  import opened EmailChunks
  import opened Sorting

  const MAILBOX_TYPE := "lexonarchivebuilder/mailbox-artifact"
  const MAILBOX_MEDIA_TYPE := "application/mbox"
  const NORMALIZED_EMAIL_TYPE := "lexonarchivebuilder/normalized-email-artifact"
  const NORMALIZED_EMAIL_MEDIA_TYPE := "application/vnd.lexonarchivebuilder.normalized-email+cbor"
  const NORMALIZED_EMAIL_SCHEMA_VERSION := 1

  datatype StoredBlock = StoredBlock(typeName: string, mediaType: string, body: seq<Byte>)

  type ArtifactStore = map<BlockId, StoredBlock>

  /** Serialization, deserialization and content addressing. */
  datatype Codec = Codec(enc: Encoder, dec: seq<Byte> -> Option<Value>, address: StoredBlock -> BlockId)

  /** Values survive a round trip through bytes, and addresses do not collide. */
  ghost predicate Sound(c: Codec) {
    (forall v :: c.dec(c.enc(v)) == Some(v)) && (forall a, b :: c.address(a) == c.address(b) ==> a == b)
  }

  ghost predicate ContentAddressed(c: Codec, store: ArtifactStore) {
    forall r :: r in store ==> r == c.address(store[r])
  }

  datatype Header = Header(name: string, value: string)

  /** A parsed and normalized message. */
  datatype Message = Message(headers: seq<Header>, subject: Option<string>, sender: Option<string>,
                             recipientContext: Option<string>, date: Option<string>, messageId: Option<string>,
                               body: string)

  // -------------------------------------------------------------------- the artifact

  function TextField(key: string, value: Value): Entry { Entry(Text(key), value) }

  function OptionText(value: Option<string>): Value {
    match value
    case Some(text) => Text(text)
    case None => Null
  }

  function HeaderValue(h: Header): Value {
    Map([TextField("name", Text(h.name)), TextField("value", Text(h.value))])
  }

  function HeaderValues(headers: seq<Header>): seq<Value> {
    seq(|headers|, i requires 0 <= i < |headers| => HeaderValue(headers[i]))
  }

  function Fields(mailboxRef: string, index: nat, m: Message): seq<Entry> {
    [TextField("schema_version", Integer(NORMALIZED_EMAIL_SCHEMA_VERSION)),
     TextField("mailbox_artifact_ref", Text(mailboxRef)),
     TextField("mailbox_message_index", Integer(index)),
     TextField("headers", Array(HeaderValues(m.headers))),
     TextField("subject", OptionText(m.subject)),
     TextField("from", OptionText(m.sender)),
     TextField("recipient_context", OptionText(m.recipientContext)),
     TextField("date", OptionText(m.date)),
     TextField("message_id", OptionText(m.messageId)),
     TextField("body", Text(m.body))]
  }

  function Render(c: Codec, mailboxRef: string, index: nat, m: Message): Result<Value> {
    Canonicalize(c.enc, Map(Fields(mailboxRef, index, m)))
  }

  function EmailBlock(c: Codec, value: Value): StoredBlock {
    StoredBlock(NORMALIZED_EMAIL_TYPE, NORMALIZED_EMAIL_MEDIA_TYPE, c.enc(value))
  }

  // --------------------------------------------------------------------- resolution

  datatype ResolveError =
    | MissingArtifact | ArtifactWrongType | ArtifactWrongMediaType | ArtifactDecode | ArtifactMissingBody
    | MissingChunk(ref: BlockId, index: nat)

  datatype Resolved<T> = Found(value: T) | Failed(error: ResolveError)

  function FindBody(fields: seq<Entry>): Option<string> {
    if fields == [] then None
    else if fields[0].key == Text("body") && fields[0].value.Text? then Some(fields[0].value.text)
    else FindBody(fields[1..])
  }

  /** The first schema version that fits into 64 bits without a sign. */
  function FindVersion(fields: seq<Entry>): Option<int> {
    if fields == [] then None
    else if fields[0].key == Text("schema_version") && fields[0].value.Integer? &&
      0 <= fields[0].value.n < 0x1_0000_0000_0000_0000
    then Some(fields[0].value.n)
    else FindVersion(fields[1..])
  }

  function NormalizedEmailBody(c: Codec, bytes: seq<Byte>): Resolved<string> {
    match c.dec(bytes)
    case Some(Map(fields)) =>
      if FindBody(fields).None? then Failed(ArtifactMissingBody)
      else if FindVersion(fields) != Some(NORMALIZED_EMAIL_SCHEMA_VERSION) then Failed(ArtifactDecode)
      else Found(FindBody(fields).value)
    case _ => Failed(ArtifactDecode)
  }

  function LoadEmailChunks(c: Codec, store: ArtifactStore, ref: BlockId): Resolved<seq<string>> {
    if ref !in store then Failed(MissingArtifact)
    else if store[ref].typeName != NORMALIZED_EMAIL_TYPE then Failed(ArtifactWrongType)
    else if store[ref].mediaType != NORMALIZED_EMAIL_MEDIA_TYPE then Failed(ArtifactWrongMediaType)
    else match NormalizedEmailBody(c, store[ref].body)
      case Failed(error) => Failed(error)
      case Found(body) => Found(Chunks(body))
  }

  /** Resolution without a cache. */
  function Resolve(c: Codec, store: ArtifactStore, ref: BlockId, index: nat): Resolved<string> {
    match LoadEmailChunks(c, store, ref)
    case Failed(error) => Failed(error)
    case Found(chunks) => if index < |chunks| then Found(chunks[index]) else Failed(MissingChunk(ref, index))
  }

  /** The cache of a resolver shared by several threads. */
  class EmailChunkResolver {
    const codec: Codec
    const store: ArtifactStore
    var cache: map<BlockId, seq<string>>

    /** Everything cached is what the store gives. */
    ghost predicate Valid()
      reads this
    {
      forall r :: r in cache ==> LoadEmailChunks(codec, store, r) == Found(cache[r])
    }

    constructor (codec: Codec, store: ArtifactStore)
      ensures this.codec == codec && this.store == store && Valid()
    {
      this.codec, this.store, cache := codec, store, map[];
    }

    /** What other threads may do while this one holds no lock. */
    method OtherThreads()
      requires Valid()
      modifies this`cache
      ensures Valid() && forall r :: r in old(cache) ==> r in cache && cache[r] == old(cache)[r]
    {
      var n: int := *;
      for i := 0 to if n < 0 then 0 else n
        invariant Valid() && forall r :: r in old(cache) ==> r in cache && cache[r] == old(cache)[r]
      {
        var r: BlockId := *;
        var loaded := LoadEmailChunks(codec, store, r);
        if loaded.Found? && r !in cache { cache := cache[r := loaded.value]; }
      }
    }

    /** The cache is transparent: whatever it holds, the answer is the store's. */
    method ResolveEmailChunk(ref: BlockId, index: nat) returns (resolved: Resolved<string>)
      requires Valid()
      modifies this`cache
      ensures Valid() && resolved == Resolve(codec, store, ref, index)
      ensures resolved.Found? ==> ref in cache
    {
      var chunks: seq<string>;
      if ref in cache {
        chunks := cache[ref];
      } else {
        var loaded := LoadEmailChunks(codec, store, ref);
        if loaded.Failed? { return Failed(loaded.error); }
        OtherThreads();
        if ref !in cache { cache := cache[ref := loaded.value]; }
        chunks := cache[ref];
      }
      if index >= |chunks| { return Failed(MissingChunk(ref, index)); }
      return Found(chunks[index]);
    }
  }

  // --------------------------------------------------------- rendering never fails

  /** The keys of an artifact, in the order they are written down. */
  const KEYS: seq<string> := ["schema_version", "mailbox_artifact_ref", "mailbox_message_index", "headers", "subject",
                              "from", "recipient_context", "date", "message_id", "body"]

  lemma KeysDiffer(i: nat, j: nat)
    requires i < j < 10
    ensures KEYS[i] != KEYS[j]
  {
    assert |KEYS[0]| == 14 && |KEYS[1]| == 20 && |KEYS[2]| == 21 && |KEYS[3]| == 7 && |KEYS[4]| == 7;
    assert |KEYS[5]| == 4 && |KEYS[6]| == 17 && |KEYS[7]| == 4 && |KEYS[8]| == 10 && |KEYS[9]| == 4;
    assert KEYS[3][0] == 'h' && KEYS[4][0] == 's';
    assert KEYS[5][0] == 'f' && KEYS[7][0] == 'd' && KEYS[9][0] == 'b';
  }

  lemma FieldKeys(mailboxRef: string, index: nat, m: Message)
    ensures |Fields(mailboxRef, index, m)| == 10
    ensures forall i :: 0 <= i < 10 ==> Fields(mailboxRef, index, m)[i].key == Text(KEYS[i])
  {
  }

  lemma TextKeysDoNotClash(c: Codec, a: string, b: string)
    requires Sound(c) && a != b
    ensures !ClashingKeys(c.enc, Text(a), Text(b))
  {
    assert c.dec(c.enc(Text(a))) == Some(Text(a)) && c.dec(c.enc(Text(b))) == Some(Text(b));
  }

  lemma HeadersAccepted(c: Codec, headers: seq<Header>)
    requires Sound(c)
    ensures Accepts(c.enc, Array(HeaderValues(headers)))
  {
    var values := HeaderValues(headers);
    forall i | 0 <= i < |values| ensures Accepts(c.enc, values[i]) {
      HeaderAccepted(c, headers[i]);
    }
    AllFacts(c.enc, values);
  }

  lemma HeaderAccepted(c: Codec, h: Header)
    requires Sound(c)
    ensures Accepts(c.enc, HeaderValue(h))
  {
    var entries := HeaderValue(h).entries;
    assert |"name"| == 4 && |"value"| == 5;
    TextKeysDoNotClash(c, "name", "value");
    MapIsAccepted(c.enc, entries);
    forall i, j | 0 <= i < j < |entries| ensures !ClashingKeys(c.enc, entries[i].key, entries[j].key) {
      assert i == 0 && j == 1;
    }
  }

  /** An artifact always has a canonical form: its keys differ and its values are supported. */
  lemma RenderSucceeds(c: Codec, mailboxRef: string, index: nat, m: Message)
    requires Sound(c)
    ensures Render(c, mailboxRef, index, m).Ok?
  {
    var fields := Fields(mailboxRef, index, m);
    FieldKeys(mailboxRef, index, m);
    HeadersAccepted(c, m.headers);
    forall i | 0 <= i < |fields| ensures AcceptsEntry(c.enc, fields[i]) { }
    forall i, j | 0 <= i < j < |fields| ensures !ClashingKeys(c.enc, fields[i].key, fields[j].key) {
      KeysDiffer(i, j);
      TextKeysDoNotClash(c, KEYS[i], KEYS[j]);
    }
    MapIsAccepted(c.enc, fields);
  }

  // ------------------------------------------------- reading back what was rendered

  /** The entries of a rendered artifact are its fields, in some order. */
  lemma RenderedEntries(c: Codec, mailboxRef: string, index: nat, m: Message, e: Entry)
    requires Render(c, mailboxRef, index, m).Ok?
    ensures Render(c, mailboxRef, index, m).value.Map?
    ensures e in Render(c, mailboxRef, index, m).value.entries <==>
      exists i :: 0 <= i < 10 && AcceptsEntry(c.enc, Fields(mailboxRef, index, m)[i]) &&
        e == CanonicalEntry(c.enc, Fields(mailboxRef, index, m)[i])
  {
    hide Fields;
    var fields := Fields(mailboxRef, index, m);
    FieldKeys(mailboxRef, index, m);
    EntriesFacts(c.enc, fields);
    var normalized := CanonicalizeEntries(c.enc, fields).value;
    ByKeyIsStrictWeak(c.enc);
    SortedMembers(ByKey(c.enc), normalized);
    assert e in normalized <==>
      exists i :: 0 <= i < 10 && AcceptsEntry(c.enc, fields[i]) && e == CanonicalEntry(c.enc, fields[i]);
  }

  lemma KeyTells(c: Codec, mailboxRef: string, index: nat, m: Message, e: Entry, k: nat)
    requires Render(c, mailboxRef, index, m).Ok? && k < 10
    requires Render(c, mailboxRef, index, m).value.Map? && e in Render(c, mailboxRef, index, m).value.entries
    requires e.key == Text(KEYS[k])
    ensures AcceptsEntry(c.enc, Fields(mailboxRef, index, m)[k])
    ensures e == CanonicalEntry(c.enc, Fields(mailboxRef, index, m)[k])
  {
    RenderedEntries(c, mailboxRef, index, m, e);
    FieldKeys(mailboxRef, index, m);
    hide Fields;
    var i :| 0 <= i < 10 && AcceptsEntry(c.enc, Fields(mailboxRef, index, m)[i]) &&
      e == CanonicalEntry(c.enc, Fields(mailboxRef, index, m)[i]);
    assert e.key == Text(KEYS[i]);
    if i < k { KeysDiffer(i, k); } else if k < i { KeysDiffer(k, i); }
  }

  lemma {:induction false} FindsBody(fields: seq<Entry>, body: string)
    requires Entry(Text("body"), Text(body)) in fields
    requires forall e :: e in fields && e.key == Text("body") ==> e == Entry(Text("body"), Text(body))
    ensures FindBody(fields) == Some(body)
  {
    assert fields == [fields[0]] + fields[1..];
    assert fields[0] in fields;
    if fields[0].key != Text("body") { FindsBody(fields[1..], body); }
  }

  lemma {:induction false} FindsVersion(fields: seq<Entry>)
    requires Entry(Text("schema_version"), Integer(1)) in fields
    requires forall e :: e in fields && e.key == Text("schema_version") ==>
      e == Entry(Text("schema_version"), Integer(1))
    ensures FindVersion(fields) == Some(1)
  {
    assert fields == [fields[0]] + fields[1..];
    assert fields[0] in fields;
    if fields[0].key != Text("schema_version") { FindsVersion(fields[1..]); }
  }

  /** The body comes back exactly from a rendered artifact. */
  lemma BodyRoundTrip(c: Codec, mailboxRef: string, index: nat, m: Message)
    requires Sound(c) && Render(c, mailboxRef, index, m).Ok?
    ensures NormalizedEmailBody(c, c.enc(Render(c, mailboxRef, index, m).value)) == Found(m.body)
  {
    var value := Render(c, mailboxRef, index, m).value;
    var body, version := Entry(Text("body"), Text(m.body)), Entry(Text("schema_version"), Integer(1));
    var fields := Fields(mailboxRef, index, m);
    assert fields[9] == body && fields[0] == version;
    assert AcceptsEntry(c.enc, body) && CanonicalEntry(c.enc, body) == body;
    assert AcceptsEntry(c.enc, version) && CanonicalEntry(c.enc, version) == version;
    RenderedEntries(c, mailboxRef, index, m, body);
    RenderedEntries(c, mailboxRef, index, m, version);
    hide Render, Canonicalize, Fields;
    forall e | e in value.entries && e.key == Text("body")
      ensures e == body
    {
      KeyTells(c, mailboxRef, index, m, e, 9);
    }
    forall e | e in value.entries && e.key == Text("schema_version")
      ensures e == version
    {
      KeyTells(c, mailboxRef, index, m, e, 0);
    }
    FindsBody(value.entries, m.body);
    FindsVersion(value.entries);
    assert c.dec(c.enc(value)) == Some(value);
  }

  /** The map has this value under this key, and no other. */
  ghost predicate Says(v: Value, key: string, value: Value) {
    && v.Map? && Entry(Text(key), value) in v.entries
    && forall e :: e in v.entries && e.key == Text(key) ==> e.value == value
  }

  lemma FieldIsSaid(c: Codec, mailboxRef: string, index: nat, m: Message, k: nat)
    requires Render(c, mailboxRef, index, m).Ok? && k < 10
    ensures AcceptsEntry(c.enc, Fields(mailboxRef, index, m)[k])
    ensures Says(Render(c, mailboxRef, index, m).value, KEYS[k],
        CanonicalEntry(c.enc, Fields(mailboxRef, index, m)[k]).value)
  {
    FieldKeys(mailboxRef, index, m);
    hide Fields;
    var v, fields := Render(c, mailboxRef, index, m).value, Fields(mailboxRef, index, m);
    EntriesFacts(c.enc, fields);
    assert AcceptsEntry(c.enc, fields[k]);
    var said := CanonicalEntry(c.enc, fields[k]);
    assert said.key == Text(KEYS[k]);
    RenderedEntries(c, mailboxRef, index, m, said);
    hide Render, Canonicalize;
    forall e | e in v.entries && e.key == Text(KEYS[k]) ensures e.value == said.value {
      KeyTells(c, mailboxRef, index, m, e, k);
    }
  }

  /** What an artifact says: the schema version, where the message comes from, its headers in
      order, and its fields, with null for what is missing; and nothing else. */
  lemma ArtifactSays(c: Codec, mailboxRef: string, index: nat, m: Message)
    requires Sound(c)
    ensures var r := Render(c, mailboxRef, index, m);
      && r.Ok? && r.value.Map? && |r.value.entries| == 10
      && Says(r.value, "schema_version", Integer(1))
      && Says(r.value, "mailbox_artifact_ref", Text(mailboxRef))
      && Says(r.value, "mailbox_message_index", Integer(index))
      && (exists values :: Says(r.value, "headers", Array(values)) && SayHeaders(values, m.headers))
      && Says(r.value, "subject", if m.subject.Some? then Text(m.subject.value) else Null)
      && Says(r.value, "from", if m.sender.Some? then Text(m.sender.value) else Null)
      && Says(r.value, "recipient_context", if m.recipientContext.Some? then Text(m.recipientContext.value) else Null)
      && Says(r.value, "date", if m.date.Some? then Text(m.date.value) else Null)
      && Says(r.value, "message_id", if m.messageId.Some? then Text(m.messageId.value) else Null)
      && Says(r.value, "body", Text(m.body))
  {
    hide Render, Says, Fields, CanonicalEntry, AcceptsEntry, SayHeaders;
    RenderSucceeds(c, mailboxRef, index, m);
    FieldKeys(mailboxRef, index, m);
    var v, fields := Render(c, mailboxRef, index, m).value, Fields(mailboxRef, index, m);
    forall k | 0 <= k < 10
      ensures AcceptsEntry(c.enc, fields[k]) && Says(v, KEYS[k], CanonicalEntry(c.enc, fields[k]).value)
    {
      FieldIsSaid(c, mailboxRef, index, m, k);
    }
    ArtifactHasTen(c, mailboxRef, index, m);
    ScalarsStay(c, mailboxRef, index, m);
    HeadersSaid(c, m.headers);
    FieldValues(c, mailboxRef, index, m);
    assert Says(v, "schema_version", Integer(1)) && KEYS[0] == "schema_version";
    assert Says(v, "mailbox_artifact_ref", Text(mailboxRef)) && KEYS[1] == "mailbox_artifact_ref";
    assert Says(v, "mailbox_message_index", Integer(index)) && KEYS[2] == "mailbox_message_index";
    assert Says(v, "headers", Array(CanonicalHeaders(c, m.headers))) && KEYS[3] == "headers";
    assert Says(v, "subject", OptionText(m.subject)) && KEYS[4] == "subject";
    assert Says(v, "from", OptionText(m.sender)) && KEYS[5] == "from";
    assert Says(v, "recipient_context", OptionText(m.recipientContext)) && KEYS[6] == "recipient_context";
    assert Says(v, "date", OptionText(m.date)) && KEYS[7] == "date";
    assert Says(v, "message_id", OptionText(m.messageId)) && KEYS[8] == "message_id";
    assert Says(v, "body", Text(m.body)) && KEYS[9] == "body";
    hide Canonicalize;
  }

  function CanonicalHeaders(c: Codec, headers: seq<Header>): seq<Value>
    requires Accepts(c.enc, Array(HeaderValues(headers)))
  {
    Canonicalize(c.enc, Array(HeaderValues(headers))).value.values
  }

  lemma FieldValues(c: Codec, mailboxRef: string, index: nat, m: Message)
    requires Accepts(c.enc, Array(HeaderValues(m.headers)))
    ensures var fields := Fields(mailboxRef, index, m);
      && fields[0].value == Integer(1) && fields[1].value == Text(mailboxRef) && fields[2].value == Integer(index)
      && AcceptsEntry(c.enc, fields[3])
      && CanonicalEntry(c.enc, fields[3]).value == Array(CanonicalHeaders(c, m.headers))
      && fields[4].value == OptionText(m.subject) && fields[5].value == OptionText(m.sender)
      && fields[6].value == OptionText(m.recipientContext) && fields[7].value == OptionText(m.date)
      && fields[8].value == OptionText(m.messageId) && fields[9].value == Text(m.body)
  {
    hide OptionText;
  }

  lemma ArtifactHasTen(c: Codec, mailboxRef: string, index: nat, m: Message)
    requires Render(c, mailboxRef, index, m).Ok?
    ensures Render(c, mailboxRef, index, m).value.Map? && |Render(c, mailboxRef, index, m).value.entries| == 10
  {
    FieldKeys(mailboxRef, index, m);
    hide Fields, Canonicalize;
    MapKeepsCount(c.enc, Fields(mailboxRef, index, m));
  }

  lemma ScalarsStay(c: Codec, mailboxRef: string, index: nat, m: Message)
    requires forall k :: 0 <= k < 10 ==> AcceptsEntry(c.enc, Fields(mailboxRef, index, m)[k])
    ensures forall k :: 0 <= k < 10 && k != 3 ==>
      CanonicalEntry(c.enc, Fields(mailboxRef, index, m)[k]).value == Fields(mailboxRef, index, m)[k].value
  {
  }

  /** One map per header, with its name and its value. */
  ghost predicate SayHeaders(values: seq<Value>, headers: seq<Header>) {
    && |values| == |headers|
    && forall i :: 0 <= i < |headers| ==>
         Says(values[i], "name", Text(headers[i].name)) && Says(values[i], "value", Text(headers[i].value))
         && |values[i].entries| == 2
  }

  lemma HeadersSaid(c: Codec, headers: seq<Header>)
    requires Sound(c)
    ensures Accepts(c.enc, Array(HeaderValues(headers)))
    ensures SayHeaders(CanonicalHeaders(c, headers), headers)
  {
    HeadersAccepted(c, headers);
    AllFacts(c.enc, HeaderValues(headers));
    forall i | 0 <= i < |headers|
      ensures var v := Canonicalize(c.enc, HeaderValues(headers)[i]).value;
        Says(v, "name", Text(headers[i].name)) && Says(v, "value", Text(headers[i].value)) && |v.entries| == 2
    {
      HeaderSaid(c, headers[i]);
    }
    hide Says, HeaderValue;
  }

  lemma HeaderSaid(c: Codec, h: Header)
    requires Sound(c)
    ensures Accepts(c.enc, HeaderValue(h))
    ensures var v := Canonicalize(c.enc, HeaderValue(h)).value;
      Says(v, "name", Text(h.name)) && Says(v, "value", Text(h.value)) && |v.entries| == 2
  {
    HeaderAccepted(c, h);
    var entries := HeaderValue(h).entries;
    assert |entries| == 2 && |"name"| == 4 && |"value"| == 5;
    HeaderEntries(c, h);
    MapKeepsCount(c.enc, entries);
    hide Canonicalize;
  }

  lemma HeaderEntries(c: Codec, h: Header)
    requires Accepts(c.enc, HeaderValue(h))
    ensures var v := Canonicalize(c.enc, HeaderValue(h)).value;
      v.Map? && forall e :: e in v.entries <==>
        e == Entry(Text("name"), Text(h.name)) || e == Entry(Text("value"), Text(h.value))
  {
    var entries := HeaderValue(h).entries;
    EntriesFacts(c.enc, entries);
    var normalized := CanonicalizeEntries(c.enc, entries).value;
    assert normalized == entries;
    ByKeyIsStrictWeak(c.enc);
    hide AcceptsEntry, CanonicalEntry, KeyLess, Sort, AdjacentDuplicate;
    SortedMembers(ByKey(c.enc), normalized);
  }

  /** How the artifact of a message is stored. */
  lemma StoredAs(c: Codec, mailboxRef: string, index: nat, m: Message)
    requires Sound(c) && Render(c, mailboxRef, index, m).Ok?
    ensures var block := EmailBlockFor(c, mailboxRef, index, m);
      && block.typeName == "lexonarchivebuilder/normalized-email-artifact"
      && block.mediaType == "application/vnd.lexonarchivebuilder.normalized-email+cbor"
      && c.dec(block.body) == Some(Render(c, mailboxRef, index, m).value)
  {
  }

  // ---------------------------------------------------------------- what resolution says

  /** The first text under the key "body", the first version under "schema_version". */
  ghost predicate BodyAt(fields: seq<Entry>, k: nat, body: string) {
    && k < |fields| && fields[k] == Entry(Text("body"), Text(body))
    && forall i :: 0 <= i < k ==> fields[i].key != Text("body") || !fields[i].value.Text?
  }

  predicate IsVersion(e: Entry) {
    e.key == Text("schema_version") && e.value.Integer? && 0 <= e.value.n < 0x1_0000_0000_0000_0000
  }

  ghost predicate VersionOneAt(fields: seq<Entry>, k: nat) {
    k < |fields| && IsVersion(fields[k]) && fields[k].value.n == 1 && forall i :: 0 <= i < k ==> !IsVersion(fields[i])
  }

  lemma {:induction false} FindBodyIff(fields: seq<Entry>, body: string)
    ensures FindBody(fields) == Some(body) <==> exists k: nat :: BodyAt(fields, k, body)
    ensures FindBody(fields).None? <==> forall i :: 0 <= i < |fields| ==>
      fields[i].key != Text("body") || !fields[i].value.Text?
  {
    if fields != [] {
      FindBodyIff(fields[1..], body);
      if fields[0].key == Text("body") && fields[0].value.Text? {
        if fields[0].value.text == body { assert BodyAt(fields, 0, body); }
      } else {
        if k: nat :| BodyAt(fields[1..], k, body) { assert BodyAt(fields, k + 1, body); }
        if k: nat :| BodyAt(fields, k, body) { assert BodyAt(fields[1..], k - 1, body); }
        if FindBody(fields).None? {
          forall i | 0 <= i < |fields| ensures fields[i].key != Text("body") || !fields[i].value.Text? {
            assert i > 0 ==> fields[i] == fields[1..][i - 1];
          }
        }
      }
    }
  }

  lemma {:induction false} FindVersionIff(fields: seq<Entry>)
    ensures FindVersion(fields) == Some(1) <==> exists k: nat :: VersionOneAt(fields, k)
  {
    if fields != [] {
      FindVersionIff(fields[1..]);
      if IsVersion(fields[0]) {
        if fields[0].value.n == 1 { assert VersionOneAt(fields, 0); }
      } else {
        if k: nat :| VersionOneAt(fields[1..], k) { assert VersionOneAt(fields, k + 1); }
        if k: nat :| VersionOneAt(fields, k) { assert VersionOneAt(fields[1..], k - 1); }
      }
    }
  }

  /** When a reference resolves, and what it is refused for otherwise. */
  lemma ResolutionIs(c: Codec, store: ArtifactStore, ref: BlockId, index: nat)
    ensures var r := Resolve(c, store, ref, index);
      if ref !in store then r == Failed(MissingArtifact)
      else
        var block := store[ref];
        var value := c.dec(block.body);
        if block.typeName != "lexonarchivebuilder/normalized-email-artifact" then r == Failed(ArtifactWrongType)
        else if block.mediaType != "application/vnd.lexonarchivebuilder.normalized-email+cbor"
        then r == Failed(ArtifactWrongMediaType)
        else if value.None? || !value.value.Map? then r == Failed(ArtifactDecode)
        else
          var fields := value.value.entries;
          && ((forall body, k: nat :: !BodyAt(fields, k, body)) ==> r == Failed(ArtifactMissingBody))
          && (forall body, k: nat :: BodyAt(fields, k, body) ==>
               if (forall i: nat :: !VersionOneAt(fields, i)) then r == Failed(ArtifactDecode)
               else if index < |Chunks(body)| then r == Found(Chunks(body)[index])
               else r == Failed(MissingChunk(ref, index)))
  {
    hide Chunks, FindBody, FindVersion, BodyAt, VersionOneAt;
    if ref in store && c.dec(store[ref].body).Some? && c.dec(store[ref].body).value.Map? {
      var fields := c.dec(store[ref].body).value.entries;
      FindVersionIff(fields);
      forall body ensures FindBody(fields) == Some(body) <==> exists k: nat :: BodyAt(fields, k, body) {
        FindBodyIff(fields, body);
      }
      assert forall body, k: nat :: BodyAt(fields, k, body) ==> FindBody(fields) == Some(body);
      assert FindBody(fields).Some? ==> exists k: nat :: BodyAt(fields, k, FindBody(fields).value);
    }
  }

  // ------------------------------------------------------------------ mailbox expansion

  /** A reference to one chunk of one stored e-mail. */
  datatype ChunkRef = ChunkRef(artifact: BlockId, index: nat)

  /** The block stored for the message at an index of a mailbox. */
  function EmailBlockFor(c: Codec, mailboxRef: string, index: nat, m: Message): StoredBlock
    requires Render(c, mailboxRef, index, m).Ok?
  {
    EmailBlock(c, Render(c, mailboxRef, index, m).value)
  }

  function ChunkRefs(artifact: BlockId, count: nat): seq<ChunkRef> {
    seq(count, i requires 0 <= i < count => ChunkRef(artifact, i))
  }

  ghost predicate Renders(c: Codec, mailboxRef: string, messages: seq<Message>) {
    forall k :: 0 <= k < |messages| ==> Render(c, mailboxRef, k, messages[k]).Ok?
  }

  /** The references emitted for one message, one per chunk. */
  function RefsFor(c: Codec, mailboxRef: string, index: nat, m: Message): seq<ChunkRef>
    requires Render(c, mailboxRef, index, m).Ok?
  {
    ChunkRefs(c.address(EmailBlockFor(c, mailboxRef, index, m)), |Chunks(m.body)|)
  }

  /** The references emitted for the first `n` messages, in order. */
  ghost function Emitted(c: Codec, mailboxRef: string, messages: seq<Message>, n: nat): seq<ChunkRef>
    requires n <= |messages| && Renders(c, mailboxRef, messages)
  {
    if n == 0 then [] else Emitted(c, mailboxRef, messages, n - 1) + RefsFor(c, mailboxRef, n - 1, messages[n - 1])
  }

  ghost predicate Keeps(store: ArtifactStore, store': ArtifactStore) {
    forall r :: r in store ==> r in store' && store'[r] == store[r]
  }

  ghost predicate HoldsMessage(c: Codec, store: ArtifactStore, mailboxRef: string, index: nat, m: Message)
    requires Render(c, mailboxRef, index, m).Ok?
  {
    var block := EmailBlockFor(c, mailboxRef, index, m);
    c.address(block) in store && store[c.address(block)] == block
  }

  ghost predicate HoldsMessages(c: Codec, store: ArtifactStore, mailboxRef: string, messages: seq<Message>, n: nat)
    requires n <= |messages| && Renders(c, mailboxRef, messages)
  {
    forall k :: 0 <= k < n ==> HoldsMessage(c, store, mailboxRef, k, messages[k])
  }

  method StoreBlock(c: Codec, store: ArtifactStore, block: StoredBlock) returns (ref: BlockId, store': ArtifactStore)
    requires Sound(c) && ContentAddressed(c, store)
    ensures ref == c.address(block) && ref in store' && store'[ref] == block
    ensures ContentAddressed(c, store') && Keeps(store, store')
  {
    ref := c.address(block);
    store' := store[ref := block];
  }

  /** Nothing is emitted for a message whose artifact the store refuses. */
  method ExpandMessage(c: Codec, store: ArtifactStore, mailboxRef: string, index: nat, m: Message,
                       refused: set<BlockId>)
    returns (taken: bool, ref: BlockId, store': ArtifactStore, items: seq<ChunkRef>)
    requires Sound(c) && ContentAddressed(c, store) && Render(c, mailboxRef, index, m).Ok?
    ensures ref == c.address(EmailBlockFor(c, mailboxRef, index, m)) && taken == (ref !in refused)
    ensures taken ==> items == RefsFor(c, mailboxRef, index, m) && HoldsMessage(c, store', mailboxRef, index, m)
    ensures !taken ==> items == [] && store' == store
    ensures ContentAddressed(c, store') && Keeps(store, store')
  {
    hide Sound, Render, Chunks, EmailBlock;
    var block := EmailBlock(c, Render(c, mailboxRef, index, m).value);
    ref, items := c.address(block), [];
    taken := ref !in refused;
    if !taken { return taken, ref, store, items; }
    ref, store' := StoreBlock(c, store, block);
    var chunks := ChunkEmailCore(m.body);
    for j := 0 to |chunks|
      invariant items == ChunkRefs(ref, j)
    {
      items := items + [ChunkRef(ref, j)];
    }
  }

  /** All artifacts are stored, and exactly their references are emitted, in order. */
  ghost predicate IsExpansion(c: Codec, expansion: Expansion, store: ArtifactStore, messages: seq<Message>)
    requires expansion.Expanded?
  {
    && Renders(c, expansion.mailboxRef, messages) && HoldsMessages(c, store, expansion.mailboxRef, messages, |messages|)
    && expansion.items == Emitted(c, expansion.mailboxRef, messages, |messages|)
  }

  lemma StillHolds(c: Codec, store: ArtifactStore, store': ArtifactStore, mailboxRef: string, messages: seq<Message>,
                   n: nat)
    requires n < |messages| && Renders(c, mailboxRef, messages) && HoldsMessages(c, store, mailboxRef, messages, n)
    requires Keeps(store, store') && HoldsMessage(c, store', mailboxRef, n, messages[n])
    ensures HoldsMessages(c, store', mailboxRef, messages, n + 1)
  {
    hide Render, EmailBlock;
    forall k | 0 <= k < n + 1 ensures HoldsMessage(c, store', mailboxRef, k, messages[k]) {
      if k < n { assert HoldsMessage(c, store, mailboxRef, k, messages[k]); }
    }
  }

  datatype Expansion =
    | Expanded(mailboxRef: string, items: seq<ChunkRef>)
    | EmptyMailbox
    | ParseFailed(index: nat)
    | StoreFailed(ref: BlockId)

  const BLANK := Message([], None, None, None, None, None, "")

  /** The messages of a mailbox, with a blank for one that cannot be parsed. */
  function Known(messages: seq<Option<Message>>): seq<Message> {
    seq(|messages|, k requires 0 <= k < |messages| => if messages[k].Some? then messages[k].value else BLANK)
  }

  ghost predicate AllParsed(messages: seq<Option<Message>>) {
    forall k :: 0 <= k < |messages| ==> messages[k].Some?
  }

  /** The store takes the mailbox and the artifact of each of the first `n` messages. */
  ghost predicate AllTaken(c: Codec, mailbox: BlockId, mailboxRef: string, messages: seq<Message>, n: nat,
                           refused: set<BlockId>)
    requires n <= |messages| && Renders(c, mailboxRef, messages)
  {
    && mailbox !in refused
    && forall k :: 0 <= k < n ==> c.address(EmailBlockFor(c, mailboxRef, k, messages[k])) !in refused
  }

  /** Indexing a mailbox stores one artifact per message and emits one reference per chunk
      of its body. It fails exactly if there is no message, if one cannot be parsed, or if
      the store refuses a block; a mailbox without messages is refused before anything is
      stored, and no failure loses anything stored before. */
  method ExpandMailbox(c: Codec, store: ArtifactStore, raw: seq<Byte>, show: BlockId -> string,
                       messages: seq<Option<Message>>, refused: set<BlockId>)
    returns (expansion: Expansion, store': ArtifactStore)
    requires Sound(c) && ContentAddressed(c, store)
    ensures ContentAddressed(c, store') && Keeps(store, store')
    ensures expansion.EmptyMailbox? <==> messages == []
    ensures expansion.EmptyMailbox? ==> store' == store
    ensures expansion.ParseFailed? ==> expansion.index < |messages| && messages[expansion.index].None?
    ensures expansion.ParseFailed? ==> AllParsed(messages[..expansion.index])
    ensures expansion.StoreFailed? ==> expansion.ref in refused
    ensures expansion.Expanded? ==> AllParsed(messages) && IsExpansion(c, expansion, store', Known(messages))
    ensures expansion.Expanded? ==>
      var mailbox := StoredBlock("lexonarchivebuilder/mailbox-artifact", "application/mbox", raw);
      && expansion.mailboxRef == show(c.address(mailbox))
      && c.address(mailbox) in store' && store'[c.address(mailbox)] == mailbox
    ensures var mailbox := c.address(StoredBlock(MAILBOX_TYPE, MAILBOX_MEDIA_TYPE, raw));
      var known := Known(messages);
      Renders(c, show(mailbox), known) && (expansion.Expanded? <==>
        messages != [] && AllParsed(messages) && AllTaken(c, mailbox, show(mailbox), known, |known|, refused))
  {
    hide Sound, Render, RefsFor, HoldsMessage, ContentAddressed, EmailBlockFor;
    var block := StoredBlock(MAILBOX_TYPE, MAILBOX_MEDIA_TYPE, raw);
    ghost var mailboxRef, known := show(c.address(block)), Known(messages);
    assert Renders(c, mailboxRef, known) by { AllRender(c, mailboxRef, known); }
    if messages == [] { return EmptyMailbox, store; }
    if c.address(block) in refused { return StoreFailed(c.address(block)), store; }
    var mailbox;
    mailbox, store' := StoreBlock(c, store, block);
    var items := [];
    for k := 0 to |messages|
      invariant ContentAddressed(c, store') && Keeps(store, store') && HoldsMessages(c, store', mailboxRef, known, k)
      invariant mailbox in store' && store'[mailbox] == block
      invariant items == Emitted(c, mailboxRef, known, k)
      invariant AllParsed(messages[..k]) && AllTaken(c, mailbox, mailboxRef, known, k, refused)
    {
      if messages[k].None? { return ParseFailed(k), store'; }
      ghost var before := store';
      var taken, ref, refs;
      assert messages[k].value == known[k] && Render(c, mailboxRef, k, known[k]).Ok?;
      taken, ref, store', refs := ExpandMessage(c, store', show(mailbox), k, messages[k].value, refused);
      if !taken { return StoreFailed(ref), store'; }
      StillHolds(c, before, store', mailboxRef, known, k);
      items := items + refs;
    }
    assert messages[..|messages|] == messages;
    return Expanded(show(mailbox), items), store';
  }

  lemma AllRender(c: Codec, mailboxRef: string, messages: seq<Message>)
    requires Sound(c)
    ensures Renders(c, mailboxRef, messages)
  {
    hide Sound, Render;
    forall k | 0 <= k < |messages| ensures Render(c, mailboxRef, k, messages[k]).Ok? {
      RenderSucceeds(c, mailboxRef, k, messages[k]);
    }
  }

  /** Every reference that indexing emitted resolves to the chunk it was emitted for, in
      that store and in every later one; and there is one for every chunk. */
  lemma EmittedResolves(c: Codec, store: ArtifactStore, mailboxRef: string, messages: seq<Message>, k: nat, j: nat)
    requires Sound(c) && Renders(c, mailboxRef, messages) && HoldsMessages(c, store, mailboxRef, messages, |messages|)
    requires k < |messages| && j < |Chunks(messages[k].body)|
    ensures var ref := c.address(EmailBlockFor(c, mailboxRef, k, messages[k]));
      && ChunkRef(ref, j) in Emitted(c, mailboxRef, messages, |messages|)
      && Resolve(c, store, ref, j) == Found(Chunks(messages[k].body)[j])
  {
    BodyRoundTrip(c, mailboxRef, k, messages[k]);
    hide Chunks, Render;
    EmittedHolds(c, mailboxRef, messages, |messages|, k, j);
    assert HoldsMessage(c, store, mailboxRef, k, messages[k]);
  }

  lemma {:induction false} EmittedHolds(c: Codec, mailboxRef: string, messages: seq<Message>, n: nat, k: nat, j: nat)
    requires n <= |messages| && Renders(c, mailboxRef, messages) && k < n && j < |Chunks(messages[k].body)|
    ensures ChunkRef(c.address(EmailBlockFor(c, mailboxRef, k, messages[k])), j) in Emitted(c, mailboxRef, messages, n)
    decreases n
  {
    hide Render, Chunks, EmailBlockFor;
    if k < n - 1 {
      EmittedHolds(c, mailboxRef, messages, n - 1, k, j);
    } else {
      var ref := c.address(EmailBlockFor(c, mailboxRef, k, messages[k]));
      assert ChunkRefs(ref, |Chunks(messages[k].body)|)[j] == ChunkRef(ref, j);
    }
  }

  /** Nothing else is emitted. */
  lemma {:induction false} EmittedOnly(c: Codec, mailboxRef: string, messages: seq<Message>, n: nat, item: ChunkRef)
    returns (k: nat)
    requires n <= |messages| && Renders(c, mailboxRef, messages) && item in Emitted(c, mailboxRef, messages, n)
    ensures k < n && item.artifact == c.address(EmailBlockFor(c, mailboxRef, k, messages[k]))
    ensures item.index < |Chunks(messages[k].body)|
    decreases n
  {
    hide Render, Chunks, EmailBlockFor;
    if item in Emitted(c, mailboxRef, messages, n - 1) {
      k := EmittedOnly(c, mailboxRef, messages, n - 1, item);
    } else {
      k := n - 1;
    }
  }
}
