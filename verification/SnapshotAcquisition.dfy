/** Acquisition of a source snapshot: a fresh acquisition walks the synchronized directory
    and stores a manifest; a repeated or resumed one reuses the manifest on record. */
module SnapshotAcquisition {
  import opened Options
  import opened BlockGraph
  import opened Texts
  import opened DirectoryWalk
  import opened WorkflowJournal

  datatype ManifestEntry = ManifestEntry(relativePath: string, payload: string, byteLength: nat)

  datatype Manifest = Manifest(sourceUri: string, snapshotId: string, acquiredAt: string, entries: seq<ManifestEntry>)

  /** Content addresses of payloads and manifests, and the digest that identifies a snapshot. */
  datatype Addressing = Addressing(
    payload: seq<Byte> -> string,
    manifest: Manifest -> string,
    digest: (string, seq<ManifestEntry>) -> string)

  /** How the file system, the synchronization and the store fare during one call: whether
      the snapshot directory can be made, what it holds after a synchronization that
      succeeded, where reading or storing fails, and whether the manifest can be stored. */
  datatype World = World(rootReady: bool, snapshot: Option<Node>, trouble: set<Path>, manifestStored: bool)

  datatype AcquireError =
    | EmptySourceUri | EmptyAcquiredAt | SourceUriMismatch | MissingManifestIdentity | MissingManifest
    | ManifestSourceUriMismatch | SnapshotFailed

  datatype Acquired = Acquired(snapshotId: string, manifestId: string, reused: bool) | Refusal(error: AcquireError)

  // ---------------------------------------------------------------------- manifests

  function JoinPath(path: Path): string {
    if path == [] then "" else if |path| == 1 then path[0] else path[0] + "/" + JoinPath(path[1..])
  }

  /** Components are joined by slashes. */
  lemma {:induction false} JoinPathIs(name: string, p: Path, q: Path)
    ensures JoinPath([name]) == name
    ensures p != [] && q != [] ==> JoinPath(p + q) == JoinPath(p) + "/" + JoinPath(q)
  {
    if p != [] && q != [] {
      assert (p + q)[1..] == p[1..] + q;
      if |p| == 1 { assert p[1..] + q == q; } else { JoinPathIs(name, p[1..], q); }
    }
  }

  function EntryFor(a: Addressing, file: FileEntry): ManifestEntry {
    ManifestEntry(JoinPath(file.path), a.payload(file.bytes), |file.bytes|)
  }

  function EntriesFor(a: Addressing, files: seq<FileEntry>): seq<ManifestEntry> {
    seq(|files|, i requires 0 <= i < |files| => EntryFor(a, files[i]))
  }

  function ManifestFor(a: Addressing, sourceUri: string, acquiredAt: string, files: seq<FileEntry>): Manifest {
    var entries := EntriesFor(a, files);
    Manifest(sourceUri, a.digest(sourceUri, entries), acquiredAt, entries)
  }

  function WorkItem(relativePath: string): string { "mailbox:" + relativePath }

  lemma WorkItemIsGiven(relativePath: string)
    ensures !Blank(WorkItem(relativePath))
  {
    var item := WorkItem(relativePath);
    assert item == "m" + ("ailbox:" + relativePath);
    SolidConcat("m", "ailbox:" + relativePath);
    assert !IsSpace('m') && Solid("m") == "m" + Solid("m"[1..]);
    TrimSolid(item);
  }

  // ------------------------------------------------------- what becomes of the journal

  function QueueOps(entries: seq<ManifestEntry>): seq<Op> {
    seq(|entries|, i requires 0 <= i < |entries| => QueueWork(MailboxAdmissionWork, WorkItem(entries[i].relativePath)))
  }

  function QueueAll(j: Journal, entries: seq<ManifestEntry>): Journal { ApplyAll(j, QueueOps(entries)) }

  function Resumed(j: Journal, m: Manifest): Journal {
    var identified := j.(source := j.source.(snapshotId := m.snapshotId));
    var admitting := j.stage.SourceAcquisition? || j.stage.MailboxAdmission?;
    var queued := if admitting then QueueAll(identified, m.entries) else identified;
    if j.stage.SourceAcquisition? then queued.(stage := MailboxAdmission) else queued
  }

  function Started(j: Journal, at: string): Journal {
    j.(stage := SourceAcquisition,
        source := j.source.(startedAt := Some(at), completedAt := None, manifest := None, provenance := map[]))
  }

  function Finished(j: Journal, at: string, m: Manifest, id: string, provenance: map<string, string>): Journal {
    var started := Started(j, at);
    var identified := started.(source := started.source.(snapshotId := m.snapshotId, completedAt := Some(at),
        manifest := Some(id), provenance := provenance));
    QueueAll(identified, m.entries).(stage := MailboxAdmission)
  }

  ghost predicate Names(entries: seq<ManifestEntry>, item: string) {
    exists i :: 0 <= i < |entries| && item == WorkItem(entries[i].relativePath)
  }

  /** Queueing touches nothing but the pending mailbox admissions. */
  lemma {:induction false} QueueAllFrame(j: Journal, entries: seq<ManifestEntry>)
    ensures var q := QueueAll(j, entries);
      && q == j.(work := q.work) && q.work == j.work.(mailboxAdmission := q.work.mailboxAdmission)
      && q.work.mailboxAdmission.completed == j.work.mailboxAdmission.completed
      && forall item :: item in q.work.mailboxAdmission.pending <==>
           item in j.work.mailboxAdmission.pending
           || (item !in j.work.mailboxAdmission.completed && Names(entries, item))
    decreases |entries|
  {
    if entries != [] {
      var first := QueueWork(MailboxAdmissionWork, WorkItem(entries[0].relativePath));
      WorkItemIsGiven(entries[0].relativePath);
      assert QueueOps(entries)[1..] == QueueOps(entries[1..]) && QueueOps(entries)[0] == first;
      QueueAllFrame(Apply(j, first), entries[1..]);
      forall item { NamesOneMore(entries, item); }
    }
  }

  lemma NamesOneMore(entries: seq<ManifestEntry>, item: string)
    requires entries != []
    ensures Names(entries, item) <==> item == WorkItem(entries[0].relativePath) || Names(entries[1..], item)
  {
    if Names(entries, item) {
      var i :| 0 <= i < |entries| && item == WorkItem(entries[i].relativePath);
      if i > 0 { assert entries[1..][i - 1] == entries[i]; }
    }
    if Names(entries[1..], item) {
      var i :| 0 <= i < |entries[1..]| && item == WorkItem(entries[1..][i].relativePath);
      assert entries[i + 1] == entries[1..][i];
    }
  }

  // -------------------------------------------------------------------- main results

  /** Repeating a successful acquisition leaves the journal identical. */
  lemma RepetitionIsIdle(j: Journal, at: string, m: Manifest, id: string, provenance: map<string, string>)
    ensures Resumed(Finished(j, at, m, id, provenance), m) == Finished(j, at, m, id, provenance)
  {
    var started := Started(j, at);
    var identified := started.(source := started.source.(snapshotId := m.snapshotId, completedAt := Some(at),
        manifest := Some(id), provenance := provenance));
    var done := Finished(j, at, m, id, provenance);
    QueueAllFrame(identified, m.entries);
    QueueAllFrame(done, m.entries);
    assert QueueAll(done, m.entries).work.mailboxAdmission.pending == done.work.mailboxAdmission.pending;
  }

  /** So is resuming twice. */
  lemma ResumingTwiceIsResumingOnce(j: Journal, m: Manifest)
    ensures Resumed(Resumed(j, m), m) == Resumed(j, m)
  {
    var once := Resumed(j, m);
    QueueAllFrame(j.(source := j.source.(snapshotId := m.snapshotId)), m.entries);
    QueueAllFrame(once, m.entries);
    if j.stage.SourceAcquisition? || j.stage.MailboxAdmission? {
      assert QueueAll(once, m.entries).work.mailboxAdmission.pending == once.work.mailboxAdmission.pending;
    }
  }

  lemma OnlyAdmissionChanges(work: Inventories, inventory: Inventory, kind: WorkKind)
    ensures InventoryOf(work.(mailboxAdmission := inventory), kind) == if kind.MailboxAdmissionWork? then inventory
      else InventoryOf(work, kind)
  {
  }

  /** Resuming a sound journal, however far it has come, never takes back a stage, a
      checkpoint or a completed item; it queues exactly the manifest's mailboxes that are
      not completed, and only while mailboxes are still being admitted. */
  lemma ResumingNeverRegresses(j: Journal, m: Manifest, kind: WorkKind, item: string)
    requires Sound(j) && Corresponds(j) && !Blank(m.snapshotId)
    ensures Sound(Resumed(j, m)) && Corresponds(Resumed(j, m))
    ensures Rank(Resumed(j, m).stage) >= Rank(j.stage) && Resumed(j, m).checkpoints == j.checkpoints
    ensures InventoryOf(Resumed(j, m).work, kind).completed == InventoryOf(j.work, kind).completed
    ensures item in InventoryOf(Resumed(j, m).work, kind).pending <==>
      || item in InventoryOf(j.work, kind).pending
      || (kind.MailboxAdmissionWork? && Rank(j.stage) <= 1 && Names(m.entries, item) &&
           item !in InventoryOf(j.work, kind).completed)
  {
    hide Sound, Corresponds, Blank, QueueAll, Names;
    var identified := j.(source := j.source.(snapshotId := m.snapshotId));
    QueueAllFrame(identified, m.entries);
    IdentifiedIsSound(j, m.snapshotId);
    QueueAllIsSound(identified, m.entries);
    StageIsFree(QueueAll(identified, m.entries), MailboxAdmission);
    OnlyAdmissionChanges(j.work, QueueAll(identified, m.entries).work.mailboxAdmission, kind);
  }

  lemma QueueAllIsSound(j: Journal, entries: seq<ManifestEntry>)
    requires Sound(j) && Corresponds(j)
    ensures Sound(QueueAll(j, entries)) && Corresponds(QueueAll(j, entries))
  {
    RunsKeepSound(j, QueueOps(entries));
  }

  lemma IdentifiedIsSound(j: Journal, id: string)
    requires Sound(j) && Corresponds(j) && !Blank(id)
    ensures Sound(j.(source := j.source.(snapshotId := id))) && Corresponds(j.(source := j.source.(snapshotId := id)))
  {
    hide Blank;
  }

  lemma StageIsFree(j: Journal, stage: Stage)
    ensures Sound(j) ==> Sound(j.(stage := stage))
    ensures Corresponds(j) ==> Corresponds(j.(stage := stage))
  {
    hide Blank;
  }

  /** A fresh acquisition keeps the journal sound and takes nothing completed back. It sets
      the stage back exactly when admission was already past, and the journal is valid
      afterwards if and only if no checkpoint is from beyond admission and nothing says that
      the workflow has ended. */
  lemma FinishingKeepsSound(j: Journal, at: string, m: Manifest, id: string, provenance: map<string, string>,
                            kind: WorkKind)
    requires Sound(j) && Corresponds(j) && !Blank(at) && !Blank(id) && !Blank(m.snapshotId)
    ensures var f := Finished(j, at, m, id, provenance);
      && Sound(f) && Corresponds(f) && f.checkpoints == j.checkpoints
      && InventoryOf(f.work, kind).completed == InventoryOf(j.work, kind).completed
      && (Rank(f.stage) < Rank(j.stage) <==> Rank(j.stage) > 1)
  {
    hide Sound, Corresponds, Blank, QueueAll, Names;
    var started := Started(j, at);
    var identified := started.(source := started.source.(snapshotId := m.snapshotId, completedAt := Some(at),
        manifest := Some(id), provenance := provenance));
    StartingIsSound(j, at, m.snapshotId, id, provenance);
    QueueAllFrame(identified, m.entries);
    QueueAllIsSound(identified, m.entries);
    StageIsFree(QueueAll(identified, m.entries), MailboxAdmission);
    OnlyAdmissionChanges(j.work, QueueAll(identified, m.entries).work.mailboxAdmission, kind);
  }

  lemma FinishingKeepsValid(j: Journal, at: string, m: Manifest, id: string, provenance: map<string, string>)
    requires Sound(j) && Corresponds(j) && !Blank(at) && !Blank(id) && !Blank(m.snapshotId)
    ensures IsValid(Finished(j, at, m, id, provenance)) <==>
      && AuditPaired(j.audit) && j.outcome.None? && j.generation.completedAt.None?
      && forall i :: 0 <= i < |j.checkpoints| ==> Rank(j.checkpoints[i].stage) <= Rank(MailboxAdmission)
  {
    FinishingKeepsSound(j, at, m, id, provenance, MailboxAdmissionWork);
    FinishingFrame(j, at, m, id, provenance);
    hide Sound, Corresponds, Blank, Finished;
  }

  lemma FinishingFrame(j: Journal, at: string, m: Manifest, id: string, provenance: map<string, string>)
    ensures var f := Finished(j, at, m, id, provenance);
      && f.stage == MailboxAdmission && f.checkpoints == j.checkpoints && f.audit == j.audit
      && f.generation == j.generation && f.outcome == j.outcome && f.source.sourceUri == j.source.sourceUri
      && f.source.completedAt == Some(at) && f.source.manifest == Some(id) && f.source.snapshotId == m.snapshotId
  {
    hide QueueAll;
    var started := Started(j, at);
    var source := started.source.(snapshotId := m.snapshotId, completedAt := Some(at), manifest := Some(id),
        provenance := provenance);
    QueueAllFrame(started.(source := source), m.entries);
  }

  lemma ResumingFrame(j: Journal, m: Manifest)
    ensures var r := Resumed(j, m);
      && r.source == j.source.(snapshotId := m.snapshotId) && r.checkpoints == j.checkpoints && r.audit == j.audit
  {
    hide QueueAll;
    QueueAllFrame(j.(source := j.source.(snapshotId := m.snapshotId)), m.entries);
  }

  /** A journal that a new one becomes by an accepted mutator, valid and without an
      acquisition on record, is not valid any more after a fresh acquisition. */
  lemma AcquiringCanInvalidate(m: Manifest)
    requires !Blank(m.snapshotId)
    ensures IsValid(EarlyChunk()) && EarlyChunk().source.completedAt.None?
    ensures EarlyChunk() == Apply(NewJournal(), CHUNK_DERIVED) && !Refused(CHUNK_DERIVED) && IsValid(NewJournal())
    ensures !IsValid(Finished(EarlyChunk(), "x", m, "x", map[]))
  {
    GivenText();
    EarlyChunkIsValid();
    EarlyChunkCorresponds();
    assert EarlyChunk().source.completedAt.None?;
    hide Blank, Sound, Corresponds, Finished, Apply, EarlyChunk, Progressed, AuditPaired;
    assert EarlyChunk() == Apply(NewJournal(), CHUNK_DERIVED) by { SameChunk(); }
    FinishingKeepsValid(EarlyChunk(), "x", m, "x", map[]);
    assert Rank(EarlyChunk().checkpoints[0].stage) > Rank(MailboxAdmission);
  }

  lemma SameChunk()
    ensures EarlyChunk() == Apply(NewJournal(), CHUNK_DERIVED)
  {
  }

  lemma EarlyChunkCorresponds()
    ensures Sound(EarlyChunk()) && Corresponds(EarlyChunk())
  {
    EarlyChunkIsValid();
    NewIsSound(SourceAcquisition, NewJournal().generation, NewJournal().source, NewJournal().configuration);
    hide Blank, Apply, Sound, Corresponds;
    ApplyKeepsSound(NewJournal(), CHUNK_DERIVED);
    ApplyKeepsCorrespondence(NewJournal(), CHUNK_DERIVED);
  }

  lemma EarlyChunkIsValid()
    ensures IsValid(NewJournal()) && IsValid(EarlyChunk())
    ensures !Refused(CHUNK_DERIVED) && EarlyChunk().checkpoints == [Checkpoint(ChunkDerivation, ChunkingWork, "x", "x")]
  {
    GivenText();
    hide Blank;
  }

  lemma GivenText()
    ensures !Blank("x")
  {
    assert !IsSpace("x"[0]);
  }

  const CHUNK_DERIVED := RecordCheckpoint(ChunkDerivation, ChunkingWork, "x", "x")

  function NewJournal(): Journal {
    Fresh(SourceAcquisition, Generation("x", "x", "x", None), SourceSnapshot("x", "x", None, None, None, map[]),
          Configuration("x", "x", "x", "x"))
  }

  function EarlyChunk(): Journal { Apply(NewJournal(), CHUNK_DERIVED) }

  lemma StartingIsSound(j: Journal, at: string, snapshotId: string, id: string, provenance: map<string, string>)
    requires Sound(j) && Corresponds(j) && !Blank(at) && !Blank(id) && !Blank(snapshotId)
    ensures var s := Started(j, at);
      var identified := s.(source := s.source.(snapshotId := snapshotId, completedAt := Some(at),
          manifest := Some(id), provenance := provenance));
      Sound(s) && Corresponds(s) && Sound(identified) && Corresponds(identified)
  {
    hide Blank;
  }

  // ------------------------------------------------------------------- the procedure

  /** Every manifest is stored under its own address, and addresses do not collide. */
  ghost predicate Addressed(a: Addressing, store: map<string, Manifest>) {
    && (forall id :: id in store ==> id == a.manifest(store[id]))
    && (forall m, n :: a.manifest(m) == a.manifest(n) ==> m == n)
  }

  ghost predicate Keeps(store: map<string, Manifest>, store': map<string, Manifest>) {
    forall id :: id in store ==> id in store' && store'[id] == store[id]
  }

  function Provenance(id: string, count: nat): map<string, string> {
    map["storage_seam" := "block-store", "manifest_block_id" := id, "entry_count" := Decimal(count)]
  }

  /** What a call returns and leaves behind. */
  datatype Acquisition = Acquisition(acquired: Acquired, journal: Journal, store: map<string, Manifest>)

  /** An acquisition is on record already: its manifest is used again. */
  function Reuse(j: Journal, store: map<string, Manifest>, uri: string): Acquisition {
    if j.source.manifest.None? then Acquisition(Refusal(MissingManifestIdentity), j, store)
    else
      var id := j.source.manifest.value;
      if id !in store then Acquisition(Refusal(MissingManifest), j, store)
      else if store[id].sourceUri != uri then Acquisition(Refusal(ManifestSourceUriMismatch), j, store)
      else Acquisition(Acquired(store[id].snapshotId, id, true), Resumed(j, store[id]), store)
  }

  /** A failed acquisition leaves the journal started but not completed, unless not even
      the snapshot directory could be made. */
  function AcquireAfresh(a: Addressing, j: Journal, store: map<string, Manifest>, uri: string, at: string,
                         w: World): Acquisition {
    if !w.rootReady then Acquisition(Refusal(SnapshotFailed), j, store)
    else if w.snapshot.None? || !Calm(Located([], w.snapshot.value), w.trouble) || !w.manifestStored then
      Acquisition(Refusal(SnapshotFailed), Started(j, at), store)
    else
      var m := ManifestFor(a, uri, at, Listing(Located([], w.snapshot.value)));
      var id := a.manifest(m);
      Acquisition(Acquired(m.snapshotId, id, false), Finished(j, at, m, id, Provenance(id, |m.entries|)),
          store[id := m])
  }

  function Acquire(a: Addressing, j: Journal, store: map<string, Manifest>, sourceUri: string, acquiredAt: string,
                   w: World): Acquisition {
    if Trim(sourceUri) == "" then Acquisition(Refusal(EmptySourceUri), j, store)
    else if Trim(acquiredAt) == "" then Acquisition(Refusal(EmptyAcquiredAt), j, store)
    else if Trim(j.source.sourceUri) != Trim(sourceUri) then Acquisition(Refusal(SourceUriMismatch), j, store)
    else if j.source.completedAt.Some? then Reuse(j, store, Trim(sourceUri))
    else AcquireAfresh(a, j, store, Trim(sourceUri), Trim(acquiredAt), w)
  }

  /** What is reported is on record, and is about the requested source; nothing that was
      stored is lost. */
  lemma AcquiredIsOnRecord(a: Addressing, j: Journal, store: map<string, Manifest>, uri: string, at: string, w: World)
    requires Addressed(a, store)
    ensures var r := Acquire(a, j, store, uri, at, w);
      && Addressed(a, r.store) && Keeps(store, r.store)
      && (r.acquired.Acquired? ==>
           && r.acquired.manifestId in r.store && r.store[r.acquired.manifestId].sourceUri == Trim(uri)
           && r.store[r.acquired.manifestId].snapshotId == r.acquired.snapshotId == r.journal.source.snapshotId
           && r.journal.source.completedAt.Some? && r.journal.source.manifest == Some(r.acquired.manifestId)
           && r.journal.source.sourceUri == j.source.sourceUri)
  {
    hide Resumed, Finished, Listing, Trim, Calm, EntriesFor, Addressed, Keeps, Provenance;
    if Trim(uri) != "" && Trim(at) != "" && Trim(j.source.sourceUri) == Trim(uri) && j.source.completedAt.None? {
      AfreshIsOnRecord(a, j, store, Trim(uri), Trim(at), w);
    } else if j.source.completedAt.Some? {
      if j.source.manifest.Some? && j.source.manifest.value in store {
        ResumingFrame(j, store[j.source.manifest.value]);
      }
    }
    assert Keeps(store, store) by { KeepsItself(store); }
    hide AcquireAfresh;
  }

  /** One entry for each regular file of the snapshot, in path order: the path with its
      components joined, the address of the file's bytes, and their number. */
  ghost predicate Lists(a: Addressing, snapshot: Node, files: seq<FileEntry>, entries: seq<ManifestEntry>) {
    && (forall path, bytes :: FileEntry(path, bytes) in files <==> FileAt(snapshot, path) == Some(bytes))
    && (forall i, j :: 0 <= i < j < |files| ==> PathLess(files[i].path, files[j].path))
    && |entries| == |files|
    && forall i :: 0 <= i < |files| ==>
        && entries[i].relativePath == JoinPath(files[i].path)
        && entries[i].payload == a.payload(files[i].bytes)
        && entries[i].byteLength == |files[i].bytes|
  }

  /** The item asks for the admission of a mailbox that is a regular file of the snapshot. */
  ghost predicate AsksFor(snapshot: Node, item: string) {
    exists path :: FileAt(snapshot, path).Some? && item == "mailbox:" + JoinPath(path)
  }

  /** What a fresh acquisition leaves behind: a manifest of exactly the files there are, and
      all mailboxes among them that are not completed queued for admission. */
  lemma FreshAcquisitionLists(a: Addressing, j: Journal, store: map<string, Manifest>, uri: string, at: string,
                              w: World)
    returns (files: seq<FileEntry>)
    requires w.snapshot.Some? ==> WellFormed(w.snapshot.value)
    requires Acquire(a, j, store, uri, at, w).acquired.Acquired? && !Acquire(a, j, store, uri, at, w).acquired.reused
    ensures var r := Acquire(a, j, store, uri, at, w);
      && w.snapshot.Some? && r.acquired.manifestId in r.store
      && var m := r.store[r.acquired.manifestId];
        && Lists(a, w.snapshot.value, files, m.entries)
        && m.sourceUri == Trim(uri) && m.acquiredAt == Trim(at) && m.snapshotId == a.digest(Trim(uri), m.entries)
        && r.acquired.manifestId == a.manifest(m)
        && r.journal.stage == MailboxAdmission
        && r.journal.source == SourceSnapshot(m.snapshotId, j.source.sourceUri, Some(Trim(at)), Some(Trim(at)),
            Some(a.manifest(m)), map["storage_seam" := "block-store", "manifest_block_id" := a.manifest(m),
                                     "entry_count" := Decimal(|files|)])
    ensures var before, after := j.work, Acquire(a, j, store, uri, at, w).journal.work;
      && (forall item :: item in after.mailboxAdmission.pending <==>
           || item in before.mailboxAdmission.pending
           || (AsksFor(w.snapshot.value, item) && item !in before.mailboxAdmission.completed))
      && after == before.(mailboxAdmission := before.mailboxAdmission.(pending := after.mailboxAdmission.pending))
  {
    hide Listing, Trim, Calm, QueueAll, Names, Decimal, WellFormed, JoinPath;
    var node, when := w.snapshot.value, Trim(at);
    files := Listing(Located([], node));
    var m := ManifestFor(a, Trim(uri), when, files);
    var started := Started(j, when);
    var identified := started.(source := started.source.(snapshotId := m.snapshotId, completedAt := Some(when),
        manifest := Some(a.manifest(m)), provenance := Provenance(a.manifest(m), |m.entries|)));
    QueueAllFrame(identified, m.entries);
    ManifestLists(a, Trim(uri), when, node);
    forall item ensures Names(m.entries, item) <==> AsksFor(node, item) {
      NamedIffAsked(a, node, files, m.entries, item);
    }
    hide AsksFor, Lists;
  }

  /** An acquisition does not depend on the order in which the file system lists directories. */
  lemma ReadOrderDoesNotMatter(a: Addressing, j: Journal, store: map<string, Manifest>, uri: string, at: string,
                               w: World, snapshot: Node)
    requires w.snapshot.Some? && WellFormed(w.snapshot.value) && WellFormed(snapshot)
    requires Reordered(w.snapshot.value, snapshot)
    ensures Acquire(a, j, store, uri, at, w) == Acquire(a, j, store, uri, at, w.(snapshot := Some(snapshot)))
  {
    hide Listing, Calm, WellFormed, Reordered, Finished, Resumed, Trim, ManifestFor;
    ReorderedAsCalm([], w.snapshot.value, snapshot, w.trouble);
    ReadOrderIsIrrelevant((uri, files) => uri, uri, [], w.snapshot.value, snapshot);
  }

  lemma ManifestLists(a: Addressing, uri: string, at: string, snapshot: Node)
    requires WellFormed(snapshot)
    ensures var files := Listing(Located([], snapshot));
      Lists(a, snapshot, files, ManifestFor(a, uri, at, files).entries)
  {
    hide Listing, FileAt, WellFormed, JoinPath;
    var files := Listing(Located([], snapshot));
    ListingIncreases([], snapshot);
    forall path, bytes ensures FileEntry(path, bytes) in files <==> FileAt(snapshot, path) == Some(bytes) {
      ListsExactlyTheFiles([], snapshot, FileEntry(path, bytes));
      assert path[0..] == path;
    }
  }

  lemma NamedIffAsked(a: Addressing, snapshot: Node, files: seq<FileEntry>, entries: seq<ManifestEntry>, item: string)
    requires Lists(a, snapshot, files, entries)
    ensures Names(entries, item) <==> AsksFor(snapshot, item)
  {
    hide FileAt, JoinPath, PathLess;
    if Names(entries, item) {
      var i :| 0 <= i < |entries| && item == WorkItem(entries[i].relativePath);
      assert FileEntry(files[i].path, files[i].bytes) in files;
    }
    if AsksFor(snapshot, item) {
      var path :| FileAt(snapshot, path).Some? && item == "mailbox:" + JoinPath(path);
      var e := FileEntry(path, FileAt(snapshot, path).value);
      assert e in files;
      var i :| 0 <= i < |files| && files[i] == e;
      assert item == WorkItem(entries[i].relativePath);
    }
  }

  lemma KeepsItself(store: map<string, Manifest>)
    ensures Keeps(store, store)
  {
  }

  lemma AfreshIsOnRecord(a: Addressing, j: Journal, store: map<string, Manifest>, uri: string, at: string, w: World)
    requires Addressed(a, store)
    ensures var r := AcquireAfresh(a, j, store, uri, at, w);
      && Addressed(a, r.store) && Keeps(store, r.store)
      && (r.acquired.Acquired? ==>
           && r.acquired.manifestId in r.store && r.store[r.acquired.manifestId].sourceUri == uri
           && r.store[r.acquired.manifestId].snapshotId == r.acquired.snapshotId == r.journal.source.snapshotId
           && r.journal.source.completedAt.Some? && r.journal.source.manifest == Some(r.acquired.manifestId)
           && r.journal.source.sourceUri == j.source.sourceUri)
  {
    hide Finished, Listing, Calm, EntriesFor, Provenance;
    if w.snapshot.Some? {
      var m := ManifestFor(a, uri, at, Listing(Located([], w.snapshot.value)));
      FinishingFrame(j, at, m, a.manifest(m), Provenance(a.manifest(m), |m.entries|));
    }
  }

  /** After a successful call every further call for the same source with a given time
      succeeds, whatever the world is like by then: it reports the same snapshot and
      changes neither the journal nor the store. */
  lemma SecondCallIsIdle(a: Addressing, j: Journal, store: map<string, Manifest>, uri: string, at: string, w: World,
                         uri': string, at': string, w': World)
    requires Addressed(a, store) && Acquire(a, j, store, uri, at, w).acquired.Acquired?
    requires Trim(uri') == Trim(uri) && Trim(at') != ""
    ensures var first := Acquire(a, j, store, uri, at, w);
      Acquire(a, first.journal, first.store, uri', at', w')
        == first.(acquired := Acquired(first.acquired.snapshotId, first.acquired.manifestId, true))
  {
    AcquiredIsOnRecord(a, j, store, uri, at, w);
    SuccessIsSettled(a, j, store, uri, at, w);
    hide Resumed, Finished, Listing, Trim, Addressed, Acquire;
    var first := Acquire(a, j, store, uri, at, w);
    ReusesRecord(a, first.journal, first.store, uri', at', w', first.acquired.manifestId);
  }

  lemma ReusesRecord(a: Addressing, j: Journal, store: map<string, Manifest>, uri: string, at: string, w: World,
                     id: string)
    requires Trim(uri) != "" && Trim(at) != "" && Trim(j.source.sourceUri) == Trim(uri) && j.source.completedAt.Some?
    requires j.source.manifest == Some(id) && id in store && store[id].sourceUri == Trim(uri)
    ensures Acquire(a, j, store, uri, at, w) ==
      Acquisition(Acquired(store[id].snapshotId, id, true), Resumed(j, store[id]), store)
  {
    hide Resumed, Finished, Listing, Trim;
  }

  /** Resuming what a successful call leaves behind changes nothing. */
  lemma SuccessIsSettled(a: Addressing, j: Journal, store: map<string, Manifest>, uri: string, at: string, w: World)
    requires Acquire(a, j, store, uri, at, w).acquired.Acquired?
    ensures var r := Acquire(a, j, store, uri, at, w);
      && Trim(uri) != "" && Trim(j.source.sourceUri) == Trim(uri)
      && r.acquired.manifestId in r.store && Resumed(r.journal, r.store[r.acquired.manifestId]) == r.journal
  {
    hide Resumed, Finished, Listing, Trim, Calm;
    var r := Acquire(a, j, store, uri, at, w);
    var m, id := r.store[r.acquired.manifestId], r.acquired.manifestId;
    if j.source.completedAt.Some? {
      ResumingTwiceIsResumingOnce(j, m);
    } else {
      RepetitionIsIdle(j, Trim(at), m, id, Provenance(id, |m.entries|));
    }
  }

  method QueueManifest(journal: JournalCell, entries: seq<ManifestEntry>)
    modifies journal
    ensures journal.Model() == QueueAll(old(journal.Model()), entries)
  {
    hide Apply;
    ghost var before := journal.Model();
    for i := 0 to |entries|
      invariant journal.Model() == ApplyAll(before, QueueOps(entries)[..i])
    {
      WorkItemIsGiven(entries[i].relativePath);
      assert QueueOps(entries)[..i + 1] == QueueOps(entries)[..i] + [QueueOps(entries)[i]];
      ApplyAllAppends(before, QueueOps(entries)[..i], QueueOps(entries)[i]);
      var ok := journal.QueueWork(MailboxAdmissionWork, WorkItem(entries[i].relativePath));
    }
    assert QueueOps(entries)[..|entries|] == QueueOps(entries);
  }

  lemma {:induction false} ApplyAllAppends(j: Journal, ops: seq<Op>, op: Op)
    ensures ApplyAll(j, ops + [op]) == Apply(ApplyAll(j, ops), op)
    decreases |ops|
  {
    hide Apply;
    if ops == [] {
      assert ops + [op] == [op] && [op][1..] == [];
    } else {
      assert (ops + [op])[1..] == ops[1..] + [op];
      ApplyAllAppends(Apply(j, ops[0]), ops[1..], op);
    }
  }

  method AcquireSourceSnapshot(a: Addressing, journal: JournalCell, store: map<string, Manifest>, sourceUri: string,
                               acquiredAt: string, w: World)
    returns (acquired: Acquired, store': map<string, Manifest>)
    modifies journal
    ensures Acquisition(acquired, journal.Model(), store') ==
      Acquire(a, old(journal.Model()), store, sourceUri, acquiredAt, w)
  {
    hide Listing, QueueAll, Names, Trim, Calm;
    store' := store;
    var uri := Trim(sourceUri);
    if uri == "" { return Refusal(EmptySourceUri), store'; }
    var at := Trim(acquiredAt);
    if at == "" { return Refusal(EmptyAcquiredAt), store'; }
    if Trim(journal.source.sourceUri) != uri { return Refusal(SourceUriMismatch), store'; }
    if journal.source.completedAt.Some? {
      if journal.source.manifest.None? { return Refusal(MissingManifestIdentity), store'; }
      var id := journal.source.manifest.value;
      if id !in store { return Refusal(MissingManifest), store'; }
      var manifest := store[id];
      if manifest.sourceUri != uri { return Refusal(ManifestSourceUriMismatch), store'; }
      Resume(journal, manifest);
      return Acquired(manifest.snapshotId, id, true), store';
    }
    if !w.rootReady { return Refusal(SnapshotFailed), store'; }
    journal.SetStage(SourceAcquisition);
    journal.source := journal.source.(startedAt := Some(at), completedAt := None, manifest := None,
        provenance := map[]);
    if w.snapshot.None? { return Refusal(SnapshotFailed), store'; }
    var ok, files := CollectSnapshotEntries(Located([], w.snapshot.value), w.trouble);
    if !ok { return Refusal(SnapshotFailed), store'; }
    var manifest := ManifestFor(a, uri, at, files);
    if !w.manifestStored { return Refusal(SnapshotFailed), store'; }
    var id := a.manifest(manifest);
    store' := store[id := manifest];
    Complete(journal, at, manifest, id);
    return Acquired(manifest.snapshotId, id, false), store';
  }

  /** Queues what the manifest on record calls for, while mailboxes are being admitted. */
  method Resume(journal: JournalCell, manifest: Manifest)
    modifies journal
    ensures journal.Model() == Resumed(old(journal.Model()), manifest)
  {
    hide QueueAll, Names;
    journal.source := journal.source.(snapshotId := manifest.snapshotId);
    QueueAllFrame(journal.Model(), manifest.entries);
    if journal.stage == SourceAcquisition || journal.stage == MailboxAdmission {
      QueueManifest(journal, manifest.entries);
    }
    if journal.stage == SourceAcquisition { journal.SetStage(MailboxAdmission); }
  }

  /** Records a finished acquisition in a journal that has started it. */
  method Complete(journal: JournalCell, at: string, manifest: Manifest, id: string)
    modifies journal
    ensures forall j :: old(journal.Model()) == Started(j, at) ==>
      journal.Model() == Finished(j, at, manifest, id, Provenance(id, |manifest.entries|))
  {
    hide QueueAll, Names;
    var provenance := map["storage_seam" := "block-store", "manifest_block_id" := id,
        "entry_count" := Decimal(|manifest.entries|)];
    journal.source := journal.source.(snapshotId := manifest.snapshotId, completedAt := Some(at), manifest := Some(id),
                                      provenance := provenance);
    QueueAllFrame(journal.Model(), manifest.entries);
    QueueManifest(journal, manifest.entries);
    journal.SetStage(MailboxAdmission);
  }
}
