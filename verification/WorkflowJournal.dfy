/** The workflow journal of an archive synchronization: its mutators, its validation, and
    what every run of mutators keeps. */
module WorkflowJournal {
  import opened Options
  import opened Texts

  const SCHEMA_VERSION: nat := 1

  datatype Authority = WorkflowAuthority | SubordinateAuthority

  datatype Stage =
    | SourceAcquisition | MailboxAdmission | ChunkDerivation | Embedding | PublishedRootGeneration
    | RootHistoryPublication | TerminalSuccess | TerminalFailure

  datatype WorkKind = MailboxAdmissionWork | ChunkingWork | EmbeddingWork | IndexingWork | PublicationWork

  datatype Generation =
    Generation(generationId: string, journalId: string, startedAt: string, completedAt: Option<string>)

  datatype SourceSnapshot = SourceSnapshot(snapshotId: string, sourceUri: string, startedAt: Option<string>,
                                           completedAt: Option<string>, manifest: Option<string>,
                                             provenance: map<string, string>)

  datatype Configuration = Configuration(indexing: string, chunking: string, embedding: string, publishedRoot: string)

  datatype Inventory = Inventory(pending: set<string>, completed: set<string>)

  datatype Inventories = Inventories(mailboxAdmission: Inventory, chunking: Inventory, embedding: Inventory,
                                     indexing: Inventory, publication: Inventory)

  datatype Audit = Audit(workSetId: Option<string>, workSetFrozen: bool, publishedRootId: Option<string>,
                         publishedRootAt: Option<string>, rootHistoryId: Option<string>, rootHistoryAt: Option<string>,
                         explanation: Option<string>)

  datatype Checkpoint = Checkpoint(stage: Stage, kind: WorkKind, item: string, recordedAt: string)

  datatype Subordinate = Subordinate(authority: Authority, implementation: string, location: string,
                                     lastGeneration: Option<string>, metadata: map<string, string>)

  datatype OutcomeKind = Success | NonRecoverableFailure

  datatype TerminalOutcome = TerminalOutcome(kind: OutcomeKind, recordedAt: string, detail: Option<string>)

  datatype Journal = Journal(
    schemaVersion: nat, authority: Authority, stage: Stage, generation: Generation, source: SourceSnapshot,
    configuration: Configuration, work: Inventories, audit: Audit, checkpoints: seq<Checkpoint>,
    subordinates: seq<Subordinate>, outcome: Option<TerminalOutcome>)

  datatype Error =
    | EmptyField | MissingWorkSet | UnsupportedSchemaVersion | InvalidWorkflowAuthority | InvalidSubordinateAuthority
    | PendingAndCompleted | DuplicateSubordinate | UnpairedAudit | TerminalCheckpoint | DuplicateCheckpoint
    | CheckpointNotCompleted | CheckpointPending | StageBehindCheckpoints | TerminalMismatch | StageOutOfOrder

  // ------------------------------------------------------------------------ stages

  function Rank(stage: Stage): nat {
    match stage
    case SourceAcquisition => 0
    case MailboxAdmission => 1
    case ChunkDerivation => 2
    case Embedding => 3
    case PublishedRootGeneration => 4
    case RootHistoryPublication => 5
    case _ => 6
  }

  predicate IsTerminal(stage: Stage) { stage.TerminalSuccess? || stage.TerminalFailure? }

  /** The stage is past the one that works off this kind. */
  predicate PastWork(stage: Stage, kind: WorkKind) {
    !stage.TerminalFailure? &&
    match kind
    case MailboxAdmissionWork => Rank(stage) >= 2
    case ChunkingWork => Rank(stage) >= 3
    case EmbeddingWork => Rank(stage) >= 4
    case _ => false
  }

  function InventoryOf(work: Inventories, kind: WorkKind): Inventory {
    match kind
    case MailboxAdmissionWork => work.mailboxAdmission
    case ChunkingWork => work.chunking
    case EmbeddingWork => work.embedding
    case IndexingWork => work.indexing
    case PublicationWork => work.publication
  }

  function WithInventory(work: Inventories, kind: WorkKind, inventory: Inventory): Inventories {
    match kind
    case MailboxAdmissionWork => work.(mailboxAdmission := inventory)
    case ChunkingWork => work.(chunking := inventory)
    case EmbeddingWork => work.(embedding := inventory)
    case IndexingWork => work.(indexing := inventory)
    case PublicationWork => work.(publication := inventory)
  }

  const NO_WORK := Inventory({}, {})
  const EMPTY_INVENTORIES := Inventories(NO_WORK, NO_WORK, NO_WORK, NO_WORK, NO_WORK)
  const EMPTY_AUDIT := Audit(None, false, None, None, None, None, None)

  // ------------------------------------------------------------------- the mutators

  datatype Op =
    | SetStage(stage: Stage)
    | QueueWork(kind: WorkKind, item: string)
    | RecordCheckpoint(stage: Stage, kind: WorkKind, item: string, recordedAt: string)
    | FreezeWorkSet(id: string)
    | RecordPublishedRoot(id: string, recordedAt: string)
    | RecordRootHistory(id: string, recordedAt: string)
    | RecordExplanation(text: string)
    | UpsertSubordinate(implementation: string, location: string, lastGeneration: Option<string>,
        metadata: map<string, string>)
    | RecordSuccess(recordedAt: string)
    | RecordFailure(recordedAt: string, detail: string)

  function Queued(inventory: Inventory, item: string): Inventory {
    if item in inventory.completed then inventory else inventory.(pending := inventory.pending + {item})
  }

  function Checkpointed(inventory: Inventory, item: string): Inventory {
    Inventory(inventory.pending - {item}, inventory.completed + {item})
  }

  function WithCheckpoint(j: Journal, c: Checkpoint): Journal {
    var inventory := InventoryOf(j.work, c.kind);
    var moved := j.(work := WithInventory(j.work, c.kind, Checkpointed(inventory, c.item)));
    if c.item in inventory.completed then moved
    else moved.(stage := if Rank(c.stage) > Rank(j.stage) then c.stage else j.stage, checkpoints := j.checkpoints + [c])
  }

  function Upserted(subordinates: seq<Subordinate>, s: Subordinate): seq<Subordinate> {
    if subordinates == [] then [s]
    else if subordinates[0].implementation == s.implementation && subordinates[0].location == s.location
    then [s] + subordinates[1..]
    else [subordinates[0]] + Upserted(subordinates[1..], s)
  }

  function Ended(j: Journal, stage: Stage, outcome: TerminalOutcome): Journal {
    j.(stage := stage, generation := j.generation.(completedAt := Some(outcome.recordedAt)), outcome := Some(outcome))
  }

  predicate Refused(op: Op) {
    match op
    case SetStage(_) => false
    case QueueWork(_, item) => Blank(item)
    case RecordCheckpoint(stage, _, item, at) => IsTerminal(stage) || Blank(item) || Blank(at)
    case FreezeWorkSet(id) => Blank(id)
    case RecordPublishedRoot(id, at) => Blank(id) || Blank(at)
    case RecordRootHistory(id, at) => Blank(id) || Blank(at)
    case RecordExplanation(text) => Blank(text)
    case UpsertSubordinate(implementation, location, last, _) =>
      Blank(implementation) || Blank(location) || (last.Some? && Blank(last.value))
    case RecordSuccess(at) => Blank(at)
    case RecordFailure(at, detail) => Blank(at) || Blank(detail)
  }

  /** What a mutator leaves behind. A refused one changes nothing, except that an id given
      without a time is already stored when the time is refused. */
  function Apply(j: Journal, op: Op): Journal {
    if Refused(op) then
      match op
      case RecordPublishedRoot(id, _) => if Blank(id) then j else j.(audit := j.audit.(publishedRootId := Some(id)))
      case RecordRootHistory(id, _) => if Blank(id) then j else j.(audit := j.audit.(rootHistoryId := Some(id)))
      case _ => j
    else
      match op
      case SetStage(stage) => j.(stage := stage)
      case QueueWork(kind, item) => j.(work := WithInventory(j.work, kind, Queued(InventoryOf(j.work, kind), item)))
      case RecordCheckpoint(stage, kind, item, at) => WithCheckpoint(j, Checkpoint(stage, kind, item, at))
      case FreezeWorkSet(id) => j.(audit := j.audit.(workSetId := Some(id), workSetFrozen := true))
      case RecordPublishedRoot(id, at) =>
        j.(audit := j.audit.(publishedRootId := Some(id), publishedRootAt := Some(at)))
      case RecordRootHistory(id, at) => j.(audit := j.audit.(rootHistoryId := Some(id), rootHistoryAt := Some(at)))
      case RecordExplanation(text) => j.(audit := j.audit.(explanation := Some(text)))
      case UpsertSubordinate(implementation, location, last, metadata) =>
        j.(subordinates := Upserted(j.subordinates,
            Subordinate(SubordinateAuthority, implementation, location, last, metadata)))
      case RecordSuccess(at) => Ended(j, TerminalSuccess, TerminalOutcome(Success, at, None))
      case RecordFailure(at, detail) =>
        Ended(j, TerminalFailure, TerminalOutcome(NonRecoverableFailure, at, Some(detail)))
  }

  function ApplyAll(j: Journal, ops: seq<Op>): Journal
    decreases |ops|
  {
    if ops == [] then j else ApplyAll(Apply(j, ops[0]), ops[1..])
  }

  // --------------------------------------------------------------------- validation

  predicate Given(value: Option<string>) { value.Some? ==> !Blank(value.value) }

  predicate NamesGiven(j: Journal) {
    && !Blank(j.generation.generationId) && !Blank(j.generation.journalId) && !Blank(j.generation.startedAt)
    && Given(j.generation.completedAt)
    && !Blank(j.source.snapshotId) && !Blank(j.source.sourceUri) && Given(j.source.startedAt)
    && Given(j.source.completedAt) && Given(j.source.manifest)
    && !Blank(j.configuration.indexing) && !Blank(j.configuration.chunking) && !Blank(j.configuration.embedding)
    && !Blank(j.configuration.publishedRoot)
  }

  predicate InventoryFine(inventory: Inventory) {
    && (forall item :: item in inventory.pending ==> !Blank(item) && item !in inventory.completed)
    && (forall item :: item in inventory.completed ==> !Blank(item))
  }

  predicate InventoriesFine(work: Inventories) {
    && InventoryFine(work.mailboxAdmission) && InventoryFine(work.chunking) && InventoryFine(work.embedding)
    && InventoryFine(work.indexing) && InventoryFine(work.publication)
  }

  predicate SubordinateFine(s: Subordinate) {
    !Blank(s.implementation) && !Blank(s.location) && Given(s.lastGeneration) && s.authority.SubordinateAuthority?
  }

  predicate SubordinatesFine(subordinates: seq<Subordinate>) {
    && (forall i :: 0 <= i < |subordinates| ==> SubordinateFine(subordinates[i]))
    && (forall i, k :: 0 <= i < k < |subordinates| ==>
          subordinates[i].implementation != subordinates[k].implementation ||
            subordinates[i].location != subordinates[k].location)
  }

  predicate AuditGiven(audit: Audit) {
    && (audit.workSetFrozen ==> audit.workSetId.Some?)
    && Given(audit.workSetId) && Given(audit.publishedRootId) && Given(audit.publishedRootAt)
    && Given(audit.rootHistoryId) && Given(audit.rootHistoryAt) && Given(audit.explanation)
  }

  predicate AuditPaired(audit: Audit) {
    (audit.publishedRootId.Some? <==> audit.publishedRootAt.Some?) &&
      (audit.rootHistoryId.Some? <==> audit.rootHistoryAt.Some?)
  }

  predicate CheckpointFine(work: Inventories, c: Checkpoint) {
    && !IsTerminal(c.stage) && !Blank(c.item) && !Blank(c.recordedAt)
    && c.item in InventoryOf(work, c.kind).completed && c.item !in InventoryOf(work, c.kind).pending
  }

  predicate CheckpointsFine(work: Inventories, checkpoints: seq<Checkpoint>) {
    && (forall i :: 0 <= i < |checkpoints| ==> CheckpointFine(work, checkpoints[i]))
    && (forall i, k :: 0 <= i < k < |checkpoints| ==>
         checkpoints[i].kind != checkpoints[k].kind || checkpoints[i].item != checkpoints[k].item)
  }

  predicate StageCoversCheckpoints(stage: Stage, checkpoints: seq<Checkpoint>) {
    forall i :: 0 <= i < |checkpoints| ==> Rank(checkpoints[i].stage) <= Rank(stage)
  }

  predicate TerminalFits(stage: Stage, outcome: Option<TerminalOutcome>, completedAt: Option<string>) {
    match outcome
    case None => !IsTerminal(stage) && completedAt.None?
    case Some(end) =>
      && completedAt == Some(end.recordedAt) && !Blank(end.recordedAt) && Given(end.detail)
      && stage == if end.kind.Success? then TerminalSuccess else TerminalFailure
  }

  predicate StageInOrder(stage: Stage, work: Inventories, audit: Audit) {
    && (PastWork(stage, MailboxAdmissionWork) ==> work.mailboxAdmission.pending == {})
    && (PastWork(stage, ChunkingWork) ==> work.chunking.pending == {})
    && (PastWork(stage, EmbeddingWork) ==> audit.workSetFrozen && work.embedding.pending == {})
    && (stage.RootHistoryPublication? || stage.TerminalSuccess? ==> audit.publishedRootId.Some?)
    && (stage.TerminalSuccess? ==> audit.rootHistoryId.Some?)
  }

  /** The clauses of validation that no run of mutators can break. */
  predicate Sound(j: Journal) {
    && j.schemaVersion == SCHEMA_VERSION && j.authority.WorkflowAuthority? && NamesGiven(j)
    && InventoriesFine(j.work) && SubordinatesFine(j.subordinates) && AuditGiven(j.audit)
    && CheckpointsFine(j.work, j.checkpoints)
  }

  /** The clauses about how far the workflow has come. */
  predicate Progressed(j: Journal) {
    && StageCoversCheckpoints(j.stage, j.checkpoints)
    && TerminalFits(j.stage, j.outcome, j.generation.completedAt)
    && StageInOrder(j.stage, j.work, j.audit)
  }

  predicate IsValid(j: Journal) { Sound(j) && AuditPaired(j.audit) && Progressed(j) }

  /** What the later stages of a valid journal rule out. */
  lemma StagesInOrder(j: Journal)
    requires IsValid(j)
    ensures j.stage.ChunkDerivation? ==> j.work.mailboxAdmission.pending == {}
    ensures j.stage.Embedding? ==> j.work.mailboxAdmission.pending == {} && j.work.chunking.pending == {}
    ensures j.stage.PublishedRootGeneration? || j.stage.RootHistoryPublication? || j.stage.TerminalSuccess? ==>
      && j.work.mailboxAdmission.pending == {} && j.work.chunking.pending == {} && j.work.embedding.pending == {}
      && j.audit.workSetFrozen
    ensures j.stage.RootHistoryPublication? || j.stage.TerminalSuccess? ==>
      j.audit.publishedRootId.Some? && j.audit.publishedRootAt.Some?
    ensures j.stage.TerminalSuccess? ==> j.audit.rootHistoryId.Some? && j.audit.rootHistoryAt.Some?
    ensures j.stage.TerminalSuccess? ==> j.outcome.Some? && j.outcome.value.kind == Success
    ensures j.stage.TerminalFailure? ==> j.outcome.Some? && j.outcome.value.kind == NonRecoverableFailure
    ensures j.stage.TerminalSuccess? || j.stage.TerminalFailure? <==> j.generation.completedAt.Some?
  {
    hide Sound;
  }

  /** Nothing else is ruled out by a stage: with the items in order, what is pending does not
      matter before the stage that works it off is over, and a failure may come at any time. */
  lemma StagesRuleOutNoMore(j: Journal)
    requires Sound(j) && AuditPaired(j.audit) && j.checkpoints == []
    ensures j.stage.SourceAcquisition? || j.stage.MailboxAdmission? ==>
      (IsValid(j) <==> j.outcome.None? && j.generation.completedAt.None?)
    ensures j.stage.ChunkDerivation? && j.work.mailboxAdmission.pending == {} ==>
      (IsValid(j) <==> j.outcome.None? && j.generation.completedAt.None?)
    ensures j.stage.Embedding? && j.work.mailboxAdmission.pending == j.work.chunking.pending == {} ==>
      (IsValid(j) <==> j.outcome.None? && j.generation.completedAt.None?)
    ensures (j.stage.TerminalFailure? && j.outcome.Some? && j.outcome.value.kind == NonRecoverableFailure
             && j.generation.completedAt == Some(j.outcome.value.recordedAt) && !Blank(j.outcome.value.recordedAt)
             && Given(j.outcome.value.detail)) ==> IsValid(j)
  {
    hide Sound, Blank;
  }

  /** A checkpoint of a later stage than the journal's is not valid, where the stages come in
      the order of the workflow. */
  lemma CheckpointsComeInOrder(j: Journal, i: nat)
    requires IsValid(j) && i < |j.checkpoints|
    ensures j.stage.SourceAcquisition? ==> j.checkpoints[i].stage.SourceAcquisition?
    ensures j.stage.MailboxAdmission? ==>
      j.checkpoints[i].stage.SourceAcquisition? || j.checkpoints[i].stage.MailboxAdmission?
    ensures j.stage.ChunkDerivation? ==> !j.checkpoints[i].stage.Embedding?
    ensures j.stage.ChunkDerivation? || j.stage.Embedding? ==> !j.checkpoints[i].stage.PublishedRootGeneration?
    ensures j.stage.ChunkDerivation? || j.stage.Embedding? || j.stage.PublishedRootGeneration? ==>
      !j.checkpoints[i].stage.RootHistoryPublication?
    ensures !j.checkpoints[i].stage.TerminalSuccess? && !j.checkpoints[i].stage.TerminalFailure?
  {
    hide StageInOrder, TerminalFits, InventoriesFine, SubordinatesFine, NamesGiven, AuditGiven, AuditPaired;
  }

  /** An accepted checkpoint takes the journal to its stage or leaves it where it was,
      whichever is later in the workflow. */
  lemma CheckpointAdvances(j: Journal, stage: Stage, kind: WorkKind, item: string, at: string)
    requires !Refused(RecordCheckpoint(stage, kind, item, at)) && item !in InventoryOf(j.work, kind).completed
    ensures var stage' := Apply(j, RecordCheckpoint(stage, kind, item, at)).stage;
      && (stage' == stage || stage' == j.stage)
      && (j.stage.SourceAcquisition? ==> stage' == stage)
      && (j.stage.MailboxAdmission? && !stage.SourceAcquisition? ==> stage' == stage)
      && (j.stage.ChunkDerivation? && !stage.SourceAcquisition? && !stage.MailboxAdmission? ==> stage' == stage)
      && (j.stage.Embedding? && (stage.PublishedRootGeneration? || stage.RootHistoryPublication?) ==> stage' == stage)
      && (j.stage.PublishedRootGeneration? && stage.RootHistoryPublication? ==> stage' == stage)
      && (stage.SourceAcquisition? || j.stage.RootHistoryPublication? || IsTerminal(j.stage) ==> stage' == j.stage)
      && (stage.MailboxAdmission? && !j.stage.SourceAcquisition? ==> stage' == j.stage)
      && (stage.ChunkDerivation? && !j.stage.SourceAcquisition? && !j.stage.MailboxAdmission? ==> stage' == j.stage)
      && (stage.Embedding? && j.stage.PublishedRootGeneration? ==> stage' == j.stage)
  {
    hide Blank;
  }

  /** A text with something in it besides white space. */
  predicate Filled(text: string) { exists i :: 0 <= i < |text| && !IsSpace(text[i]) }

  predicate FilledIfAny(text: Option<string>) { text.Some? ==> Filled(text.value) }

  /** What a sound journal is, field by field. */
  lemma SoundIff(j: Journal)
    ensures Sound(j) <==>
      && j.schemaVersion == 1 && j.authority == WorkflowAuthority
      && Filled(j.generation.generationId) && Filled(j.generation.journalId) && Filled(j.generation.startedAt)
      && FilledIfAny(j.generation.completedAt)
      && Filled(j.source.snapshotId) && Filled(j.source.sourceUri) && FilledIfAny(j.source.startedAt)
      && FilledIfAny(j.source.completedAt) && FilledIfAny(j.source.manifest)
      && Filled(j.configuration.indexing) && Filled(j.configuration.chunking) && Filled(j.configuration.embedding)
      && Filled(j.configuration.publishedRoot)
      && (forall kind, item :: item in InventoryOf(j.work, kind).pending + InventoryOf(j.work, kind).completed ==>
           Filled(item))
      && (forall kind :: InventoryOf(j.work, kind).pending !! InventoryOf(j.work, kind).completed)
      && (forall s :: s in j.subordinates ==>
           && Filled(s.implementation) && Filled(s.location) && FilledIfAny(s.lastGeneration)
           && s.authority == SubordinateAuthority)
      && (forall i, k :: 0 <= i < k < |j.subordinates| ==>
           || j.subordinates[i].implementation != j.subordinates[k].implementation
           || j.subordinates[i].location != j.subordinates[k].location)
      && (j.audit.workSetFrozen ==> j.audit.workSetId.Some?)
      && FilledIfAny(j.audit.workSetId) && FilledIfAny(j.audit.publishedRootId)
      && FilledIfAny(j.audit.publishedRootAt) && FilledIfAny(j.audit.rootHistoryId)
      && FilledIfAny(j.audit.rootHistoryAt) && FilledIfAny(j.audit.explanation)
      && (forall c :: c in j.checkpoints ==>
           && c.stage != TerminalSuccess && c.stage != TerminalFailure && Filled(c.item) && Filled(c.recordedAt)
           && c.item in InventoryOf(j.work, c.kind).completed)
      && (forall i, k :: 0 <= i < k < |j.checkpoints| ==>
           j.checkpoints[i].kind != j.checkpoints[k].kind || j.checkpoints[i].item != j.checkpoints[k].item)
  {
    forall text: string ensures Blank(text) <==> !Filled(text) { BlankIff(text); }
    hide Blank, Filled;
    InventoriesFineIff(j.work);
    hide InventoriesFine;
    if Sound(j) {
      forall c | c in j.checkpoints ensures CheckpointFine(j.work, c) { }
    }
  }

  lemma InventoriesFineIff(work: Inventories)
    ensures InventoriesFine(work) <==>
      && (forall kind, item :: item in InventoryOf(work, kind).pending + InventoryOf(work, kind).completed ==>
           !Blank(item))
      && (forall kind :: InventoryOf(work, kind).pending !! InventoryOf(work, kind).completed)
  {
    hide Blank;
    if forall kind :: InventoryFine(InventoryOf(work, kind)) {
      assert InventoryFine(InventoryOf(work, MailboxAdmissionWork)) && InventoryFine(InventoryOf(work, ChunkingWork));
      assert InventoryFine(InventoryOf(work, EmbeddingWork)) && InventoryFine(InventoryOf(work, IndexingWork));
      assert InventoryFine(InventoryOf(work, PublicationWork));
    }
  }

  /** Beyond soundness a journal is valid if its audit fields come in pairs, its stage is no
      earlier than its checkpoints', its outcome fits its stage, and its stage is in order. */
  lemma ValidIff(j: Journal)
    requires Sound(j)
    ensures IsValid(j) <==>
      && (j.audit.publishedRootId.Some? <==> j.audit.publishedRootAt.Some?)
      && (j.audit.rootHistoryId.Some? <==> j.audit.rootHistoryAt.Some?)
      && (forall c :: c in j.checkpoints ==> Rank(c.stage) <= Rank(j.stage))
      && (if j.outcome.None?
          then j.stage != TerminalSuccess && j.stage != TerminalFailure && j.generation.completedAt == None
          else
            && j.generation.completedAt == Some(j.outcome.value.recordedAt) && !Blank(j.outcome.value.recordedAt)
            && (j.outcome.value.detail.Some? ==> !Blank(j.outcome.value.detail.value))
            && (j.outcome.value.kind == Success ==> j.stage == TerminalSuccess)
            && (j.outcome.value.kind == NonRecoverableFailure ==> j.stage == TerminalFailure))
      && StageInOrder(j.stage, j.work, j.audit)
  {
    hide Sound, StageInOrder, Blank, Rank;
  }

  // --------------------------------------------------------------- what runs keep

  /** Checkpoints and completed items are in one-to-one correspondence. */
  ghost predicate Corresponds(j: Journal) {
    && CheckpointsFine(j.work, j.checkpoints)
    && forall kind, item :: item in InventoryOf(j.work, kind).completed ==>
         HasCheckpoint(j.checkpoints, kind, item)
  }

  /** Nothing recorded is ever taken back. */
  ghost predicate Grows(j: Journal, j': Journal) {
    && j.checkpoints <= j'.checkpoints
    && forall kind :: InventoryOf(j.work, kind).completed <= InventoryOf(j'.work, kind).completed
  }

  lemma {:induction false} UpsertKeepsFine(subordinates: seq<Subordinate>, s: Subordinate)
    requires SubordinatesFine(subordinates) && SubordinateFine(s)
    ensures SubordinatesFine(Upserted(subordinates, s))
    ensures forall x :: x in Upserted(subordinates, s) ==> x == s || x in subordinates
    ensures s in Upserted(subordinates, s)
  {
    if subordinates != [] {
      var rest := subordinates[1..];
      assert subordinates == [subordinates[0]] + rest;
      if subordinates[0].implementation != s.implementation || subordinates[0].location != s.location {
        UpsertKeepsFine(rest, s);
        var more := Upserted(rest, s);
        forall k | 0 <= k < |more|
          ensures subordinates[0].implementation != more[k].implementation ||
            subordinates[0].location != more[k].location
        {
          assert more[k] in more;
        }
      }
    }
  }

  lemma ApplyKeepsSound(j: Journal, op: Op)
    requires Sound(j)
    ensures Sound(Apply(j, op))
  {
    hide Blank;
    match op
    case UpsertSubordinate(implementation, location, last, metadata) =>
      if !Refused(op) {
        UpsertKeepsFine(j.subordinates, Subordinate(SubordinateAuthority, implementation, location, last, metadata));
      }
    case RecordCheckpoint(stage, kind, item, at) =>
      if !Refused(op) { CheckpointKeepsSound(j, Checkpoint(stage, kind, item, at)); }
    case _ =>
  }

  lemma CheckpointKeepsSound(j: Journal, c: Checkpoint)
    requires Sound(j) && !IsTerminal(c.stage) && !Blank(c.item) && !Blank(c.recordedAt)
    ensures Sound(WithCheckpoint(j, c))
  {
    hide Blank;
  }

  ghost predicate HasCheckpoint(checkpoints: seq<Checkpoint>, kind: WorkKind, item: string) {
    exists i :: 0 <= i < |checkpoints| && checkpoints[i].kind == kind && checkpoints[i].item == item
  }

  lemma ApplyKeepsCorrespondence(j: Journal, op: Op)
    requires Sound(j) && Corresponds(j)
    ensures Corresponds(Apply(j, op))
  {
    ApplyKeepsSound(j, op);
    hide Blank, Sound, CheckpointsFine;
    var j' := Apply(j, op);
    ApplyOnCompleted(j, op);
    assert CheckpointsFine(j'.work, j'.checkpoints) by { SoundCheckpoints(j'); }
    forall kind, item | item in InventoryOf(j'.work, kind).completed ensures HasCheckpoint(j'.checkpoints, kind, item) {
      if item in InventoryOf(j.work, kind).completed {
        assert HasCheckpoint(j.checkpoints, kind, item);
        var i :| 0 <= i < |j.checkpoints| && j.checkpoints[i].kind == kind && j.checkpoints[i].item == item;
        assert j'.checkpoints[i] == j.checkpoints[i];
      } else {
        assert j'.checkpoints[|j.checkpoints|].kind == kind && j'.checkpoints[|j.checkpoints|].item == item;
      }
    }
  }

  lemma SoundCheckpoints(j: Journal)
    requires Sound(j)
    ensures CheckpointsFine(j.work, j.checkpoints)
  {
  }

  /** Only a new checkpoint completes an item. */
  lemma ApplyOnCompleted(j: Journal, op: Op)
    ensures var j' := Apply(j, op);
      && j.checkpoints <= j'.checkpoints
      && (j'.checkpoints == j.checkpoints ==>
           forall kind :: InventoryOf(j'.work, kind).completed == InventoryOf(j.work, kind).completed)
      && (j'.checkpoints != j.checkpoints ==>
           && op.RecordCheckpoint? && !Refused(op) && op.item !in InventoryOf(j.work, op.kind).completed
           && j'.checkpoints == j.checkpoints + [Checkpoint(op.stage, op.kind, op.item, op.recordedAt)]
           && forall kind :: InventoryOf(j'.work, kind).completed
                == InventoryOf(j.work, kind).completed + if kind == op.kind then {op.item} else {})
  {
    hide Blank;
    if op.RecordCheckpoint? && op.item in InventoryOf(j.work, op.kind).completed {
      assert InventoryOf(j.work, op.kind).completed + {op.item} == InventoryOf(j.work, op.kind).completed;
    }
  }

  lemma ApplyGrows(j: Journal, op: Op)
    ensures Grows(j, Apply(j, op))
  {
    hide Blank;
  }

  // -------------------------------------------------------------------- new journals

  function Fresh(stage: Stage, generation: Generation, source: SourceSnapshot, configuration: Configuration): Journal {
    Journal(SCHEMA_VERSION, WorkflowAuthority, stage, generation, source, configuration, EMPTY_INVENTORIES,
        EMPTY_AUDIT, [], [], None)
  }

  /** A run of mutators from a new journal: validation can fail only over a published root
      or a history entry without its time, or over how far the workflow has come. */
  lemma {:induction false} RunsKeepSound(j: Journal, ops: seq<Op>)
    requires Sound(j) && Corresponds(j)
    ensures Sound(ApplyAll(j, ops)) && Corresponds(ApplyAll(j, ops)) && Grows(j, ApplyAll(j, ops))
    ensures IsValid(ApplyAll(j, ops)) <==> AuditPaired(ApplyAll(j, ops).audit) && Progressed(ApplyAll(j, ops))
    ensures AuditPaired(j.audit) && (forall i :: 0 <= i < |ops| ==> !Refused(ops[i])) ==>
      AuditPaired(ApplyAll(j, ops).audit)
    decreases |ops|
  {
    hide Sound, Corresponds, Apply, Progressed, Refused, AuditPaired;
    if ops != [] {
      if AuditPaired(j.audit) && !Refused(ops[0]) { AcceptedKeepsPaired(j, ops[0]); }
      ApplyKeepsSound(j, ops[0]);
      ApplyKeepsCorrespondence(j, ops[0]);
      ApplyGrows(j, ops[0]);
      RunsKeepSound(Apply(j, ops[0]), ops[1..]);
    }
  }

  lemma NewIsSound(stage: Stage, generation: Generation, source: SourceSnapshot, configuration: Configuration)
    requires IsValid(Fresh(stage, generation, source, configuration))
    ensures Sound(Fresh(stage, generation, source, configuration))
    ensures Corresponds(Fresh(stage, generation, source, configuration))
    ensures var j := Fresh(stage, generation, source, configuration);
      && j.stage == stage && j.generation == generation && j.source == source && j.configuration == configuration
      && (forall kind :: InventoryOf(j.work, kind) == Inventory({}, {}))
      && j.audit == Audit(None, false, None, None, None, None, None)
      && j.checkpoints == [] && j.subordinates == [] && j.outcome == None
  {
    assert forall kind :: InventoryOf(EMPTY_INVENTORIES, kind) == NO_WORK;
  }

  /** A completed item stays completed and never becomes pending again, whatever follows. */
  lemma {:induction false} CompletedStays(j: Journal, ops: seq<Op>, kind: WorkKind, item: string)
    requires Sound(j) && Corresponds(j) && item in InventoryOf(j.work, kind).completed
    ensures item in InventoryOf(ApplyAll(j, ops).work, kind).completed
    ensures item !in InventoryOf(ApplyAll(j, ops).work, kind).pending
  {
    RunsKeepSound(j, ops);
  }

  /** Checkpointing an item a second time changes nothing. */
  lemma SecondCheckpointIsIdle(j: Journal, c: Checkpoint, d: Checkpoint)
    requires Sound(j) && c.kind == d.kind && c.item == d.item
    ensures WithCheckpoint(WithCheckpoint(j, c), d) == WithCheckpoint(j, c)
  {
  }

  // ---------------------------------------------------------- pairing of audit fields

  /** A published root refused for its time leaves an unpaired id behind, exactly when no
      time had been recorded before. */
  lemma RefusedRootUnpairs(j: Journal, id: string, at: string)
    requires AuditPaired(j.audit) && Refused(RecordPublishedRoot(id, at))
    ensures AuditPaired(Apply(j, RecordPublishedRoot(id, at)).audit) <==> Blank(id) || j.audit.publishedRootAt.Some?
  {
  }

  lemma RefusedHistoryUnpairs(j: Journal, id: string, at: string)
    requires AuditPaired(j.audit) && Refused(RecordRootHistory(id, at))
    ensures AuditPaired(Apply(j, RecordRootHistory(id, at)).audit) <==> Blank(id) || j.audit.rootHistoryAt.Some?
  {
  }

  /** So validity is lost to a refused call: an id with an empty time, on any valid journal
      without a published root. */
  lemma RefusedCallInvalidates(j: Journal)
    requires IsValid(j) && j.audit.publishedRootId.None?
    ensures Refused(RecordPublishedRoot("root", "")) && !IsValid(Apply(j, RecordPublishedRoot("root", "")))
  {
    assert !IsSpace("root"[0]) && !IsSpace("root"[|"root"| - 1]);
    assert Trim("root") == "root";
  }

  lemma RefusedHistoryInvalidates(j: Journal)
    requires IsValid(j) && j.audit.rootHistoryId.None?
    ensures Refused(RecordRootHistory("entry", "")) && !IsValid(Apply(j, RecordRootHistory("entry", "")))
  {
    assert !IsSpace("entry"[0]) && !IsSpace("entry"[|"entry"| - 1]);
    assert Trim("entry") == "entry";
  }

  /** An accepted mutator keeps the audit fields paired. */
  lemma AcceptedKeepsPaired(j: Journal, op: Op)
    requires AuditPaired(j.audit) && !Refused(op)
    ensures AuditPaired(Apply(j, op).audit)
  {
    hide Blank;
  }

  // ---------------------------------------------------------------------- the class

  /** The clause that an error names is violated. */
  ghost predicate RejectedFor(j: Journal, error: Error) {
    match error
    case UnsupportedSchemaVersion => j.schemaVersion != 1
    case InvalidWorkflowAuthority => j.authority != WorkflowAuthority
    case EmptyField => !NamesGiven(j) || SomeItemBlank(j.work) || !AuditGiven(j.audit)
      || (exists s :: s in j.subordinates && (Blank(s.implementation) || Blank(s.location) || !Given(s.lastGeneration)))
      || (exists c :: c in j.checkpoints && (Blank(c.item) || Blank(c.recordedAt)))
    case PendingAndCompleted =>
      exists kind :: !(InventoryOf(j.work, kind).pending !! InventoryOf(j.work, kind).completed)
    case InvalidSubordinateAuthority => exists s :: s in j.subordinates && s.authority != SubordinateAuthority
    case DuplicateSubordinate => exists i, k :: 0 <= i < k < |j.subordinates| && SameKey(j.subordinates, i, k)
    case MissingWorkSet => j.audit.workSetFrozen && j.audit.workSetId.None?
    case UnpairedAudit => !AuditPaired(j.audit)
    case TerminalCheckpoint => exists c :: c in j.checkpoints && IsTerminal(c.stage)
    case DuplicateCheckpoint => exists i, k :: 0 <= i < k < |j.checkpoints| && SameItem(j.checkpoints, i, k)
    case CheckpointNotCompleted => exists c :: c in j.checkpoints && c.item !in InventoryOf(j.work, c.kind).completed
    case CheckpointPending => exists c :: c in j.checkpoints && c.item in InventoryOf(j.work, c.kind).pending
    case StageBehindCheckpoints => exists c :: c in j.checkpoints && Rank(c.stage) > Rank(j.stage)
    case TerminalMismatch => !TerminalFits(j.stage, j.outcome, j.generation.completedAt)
    case StageOutOfOrder => !StageInOrder(j.stage, j.work, j.audit)
  }

  predicate SameKey(subordinates: seq<Subordinate>, i: nat, k: nat)
    requires i < |subordinates| && k < |subordinates|
  {
    && subordinates[i].implementation == subordinates[k].implementation
    && subordinates[i].location == subordinates[k].location
  }

  predicate SameItem(checkpoints: seq<Checkpoint>, i: nat, k: nat)
    requires i < |checkpoints| && k < |checkpoints|
  {
    checkpoints[i].kind == checkpoints[k].kind && checkpoints[i].item == checkpoints[k].item
  }

  ghost predicate SomeItemBlank(work: Inventories) {
    exists kind, item :: item in InventoryOf(work, kind).pending + InventoryOf(work, kind).completed && Blank(item)
  }

  /** The errors a sound journal can still be rejected with. */
  predicate AboutProgress(error: Error) {
    error.UnpairedAudit? || error.StageBehindCheckpoints? || error.TerminalMismatch? || error.StageOutOfOrder?
  }

  ghost predicate IsFurthest(checkpoints: seq<Checkpoint>, rank: nat) {
    && (forall i :: 0 <= i < |checkpoints| ==> Rank(checkpoints[i].stage) <= rank)
    && (exists i :: 0 <= i < |checkpoints| && Rank(checkpoints[i].stage) == rank)
  }

  /** What `validate` has established about the first `n` checkpoints. */
  ghost predicate CheckpointsSeen(work: Inventories, checkpoints: seq<Checkpoint>, n: nat,
                                  keys: set<(WorkKind, string)>, furthest: Option<nat>)
    requires n <= |checkpoints|
  {
    && (forall key :: key in keys <==> exists i :: 0 <= i < n && key == (checkpoints[i].kind, checkpoints[i].item))
    && CheckpointsFine(work, checkpoints[..n])
    && (furthest.None? <==> n == 0)
    && (furthest.Some? ==> IsFurthest(checkpoints[..n], furthest.value))
  }

  lemma CheckpointsSeenMore(work: Inventories, checkpoints: seq<Checkpoint>, n: nat, keys: set<(WorkKind, string)>,
                            furthest: Option<nat>)
    requires n < |checkpoints| && CheckpointsSeen(work, checkpoints, n, keys, furthest)
    requires CheckpointFine(work, checkpoints[n]) && (checkpoints[n].kind, checkpoints[n].item) !in keys
    ensures var c := checkpoints[n]; var rank := Rank(c.stage);
      var further := if furthest.Some? && furthest.value > rank then furthest.value else rank;
      CheckpointsSeen(work, checkpoints, n + 1, keys + {(c.kind, c.item)}, Some(further))
  {
    hide CheckpointFine;
    var c := checkpoints[n];
    var more := checkpoints[..n + 1];
    assert more == checkpoints[..n] + [c] && more[n] == c;
    if furthest.Some? {
      var i :| 0 <= i < n && Rank(checkpoints[..n][i].stage) == furthest.value;
      assert Rank(more[i].stage) == furthest.value;
    }
    forall i | 0 <= i < n ensures checkpoints[i].kind != c.kind || checkpoints[i].item != c.item {
      assert (checkpoints[i].kind, checkpoints[i].item) in keys;
    }
  }

  lemma NotFine(work: Inventories, checkpoints: seq<Checkpoint>, n: nat, keys: set<(WorkKind, string)>,
                furthest: Option<nat>)
    requires n < |checkpoints| && CheckpointsSeen(work, checkpoints, n, keys, furthest)
    requires !CheckpointFine(work, checkpoints[n]) || (checkpoints[n].kind, checkpoints[n].item) in keys
    ensures !CheckpointsFine(work, checkpoints)
  {
    if (checkpoints[n].kind, checkpoints[n].item) in keys {
      var i :| 0 <= i < n && (checkpoints[n].kind, checkpoints[n].item) == (checkpoints[i].kind, checkpoints[i].item);
    }
  }

  lemma AllSeen(work: Inventories, checkpoints: seq<Checkpoint>, keys: set<(WorkKind, string)>, furthest: Option<nat>,
                stage: Stage)
    requires CheckpointsSeen(work, checkpoints, |checkpoints|, keys, furthest)
    ensures CheckpointsFine(work, checkpoints)
    ensures StageCoversCheckpoints(stage, checkpoints) <==> (furthest.Some? ==> Rank(stage) >= furthest.value)
  {
    assert checkpoints[..|checkpoints|] == checkpoints;
  }

  class JournalCell {
    var schemaVersion: nat
    var authority: Authority
    var stage: Stage
    var generation: Generation
    var source: SourceSnapshot
    var configuration: Configuration
    var work: Inventories
    var audit: Audit
    var checkpoints: seq<Checkpoint>
    var subordinates: seq<Subordinate>
    var outcome: Option<TerminalOutcome>

    function Model(): Journal
      reads this
    {
      Journal(schemaVersion, authority, stage, generation, source, configuration, work, audit, checkpoints,
          subordinates, outcome)
    }

    constructor (stage: Stage, generation: Generation, source: SourceSnapshot, configuration: Configuration)
      ensures Model() == Fresh(stage, generation, source, configuration)
    {
      schemaVersion, authority := SCHEMA_VERSION, WorkflowAuthority;
      this.stage, this.generation, this.source, this.configuration := stage, generation, source, configuration;
      work, audit, checkpoints, subordinates, outcome := EMPTY_INVENTORIES, EMPTY_AUDIT, [], [], None;
    }

    /** A journal is handed out only if it validates. */
    static method New(stage: Stage, generation: Generation, source: SourceSnapshot, configuration: Configuration)
      returns (journal: JournalCell, error: Option<Error>)
      ensures fresh(journal) && journal.Model() == Fresh(stage, generation, source, configuration)
      ensures error.None? <==> IsValid(Fresh(stage, generation, source, configuration))
    {
      journal := new JournalCell(stage, generation, source, configuration);
      error := journal.Validate();
    }

    method SetStage(stage: Stage)
      modifies this`stage
      ensures Model() == Apply(old(Model()), Op.SetStage(stage))
    {
      this.stage := stage;
    }

    method QueueWork(kind: WorkKind, item: string) returns (ok: bool)
      modifies this`work
      ensures ok == !Refused(Op.QueueWork(kind, item)) && Model() == Apply(old(Model()), Op.QueueWork(kind, item))
    {
      if Blank(item) { return false; }
      var inventory := InventoryOf(work, kind);
      if item !in inventory.completed { inventory := inventory.(pending := inventory.pending + {item}); }
      work := WithInventory(work, kind, inventory);
      return true;
    }

    /** Returns whether the item was completed by this call. */
    method RecordCheckpoint(stage: Stage, kind: WorkKind, item: string, recordedAt: string)
      returns (ok: bool, inserted: bool)
      modifies this`work, this`stage, this`checkpoints
      ensures ok == !Refused(Op.RecordCheckpoint(stage, kind, item, recordedAt))
      ensures Model() == Apply(old(Model()), Op.RecordCheckpoint(stage, kind, item, recordedAt))
      ensures inserted <==> ok && item !in InventoryOf(old(work), kind).completed
      ensures |checkpoints| == |old(checkpoints)| + if inserted then 1 else 0
    {
      hide Blank;
      if IsTerminal(stage) || Blank(item) || Blank(recordedAt) { return false, false; }
      var inventory := InventoryOf(work, kind);
      inserted := item !in inventory.completed;
      work := WithInventory(work, kind, Inventory(inventory.pending - {item}, inventory.completed + {item}));
      if inserted {
        if Rank(stage) > Rank(this.stage) { this.stage := stage; }
        checkpoints := checkpoints + [Checkpoint(stage, kind, item, recordedAt)];
      }
      ok := true;
    }

    method FreezeWorkSet(id: string) returns (ok: bool)
      modifies this`audit
      ensures ok == !Refused(Op.FreezeWorkSet(id)) && Model() == Apply(old(Model()), Op.FreezeWorkSet(id))
    {
      if Blank(id) { return false; }
      audit := audit.(workSetId := Some(id));
      audit := audit.(workSetFrozen := true);
      return true;
    }

    /** The id is stored before the time is looked at. */
    method RecordPublishedRoot(id: string, recordedAt: string) returns (ok: bool)
      modifies this`audit
      ensures ok == !Refused(Op.RecordPublishedRoot(id, recordedAt))
      ensures Model() == Apply(old(Model()), Op.RecordPublishedRoot(id, recordedAt))
    {
      if Blank(id) { return false; }
      audit := audit.(publishedRootId := Some(id));
      if Blank(recordedAt) { return false; }
      audit := audit.(publishedRootAt := Some(recordedAt));
      return true;
    }

    method RecordRootHistory(id: string, recordedAt: string) returns (ok: bool)
      modifies this`audit
      ensures ok == !Refused(Op.RecordRootHistory(id, recordedAt))
      ensures Model() == Apply(old(Model()), Op.RecordRootHistory(id, recordedAt))
    {
      if Blank(id) { return false; }
      audit := audit.(rootHistoryId := Some(id));
      if Blank(recordedAt) { return false; }
      audit := audit.(rootHistoryAt := Some(recordedAt));
      return true;
    }

    method RecordExplanation(text: string) returns (ok: bool)
      modifies this`audit
      ensures ok == !Refused(Op.RecordExplanation(text)) && Model() == Apply(old(Model()), Op.RecordExplanation(text))
    {
      if Blank(text) { return false; }
      audit := audit.(explanation := Some(text));
      return true;
    }

    method UpsertSubordinate(implementation: string, location: string, lastGeneration: Option<string>,
                             metadata: map<string, string>)
      returns (ok: bool)
      modifies this`subordinates
      ensures ok == !Refused(Op.UpsertSubordinate(implementation, location, lastGeneration, metadata))
      ensures Model() == Apply(old(Model()), Op.UpsertSubordinate(implementation, location, lastGeneration, metadata))
    {
      hide Blank, Upserted;
      if Blank(implementation) || Blank(location) || (lastGeneration.Some? && Blank(lastGeneration.value)) {
        return false;
      }
      var entry := Subordinate(SubordinateAuthority, implementation, location, lastGeneration, metadata);
      var i := 0;
      assert [] + Upserted(subordinates[0..], entry) == Upserted(subordinates, entry) by {
        assert subordinates[0..] == subordinates;
      }
      while i < |subordinates|
        invariant subordinates == old(subordinates)
        invariant i <= |subordinates|
        invariant Upserted(subordinates, entry) == subordinates[..i] + Upserted(subordinates[i..], entry)
      {
        if subordinates[i].implementation == implementation && subordinates[i].location == location {
          UpsertFound(subordinates, i, entry);
          subordinates := subordinates[i := entry];
          return true;
        }
        UpsertSkips(subordinates, i, entry);
        i := i + 1;
      }
      UpsertNotFound(subordinates, entry);
      subordinates := subordinates + [entry];
      return true;
    }

    method RecordTerminalSuccess(recordedAt: string) returns (ok: bool)
      modifies this`stage, this`generation, this`outcome
      ensures ok == !Refused(RecordSuccess(recordedAt)) && Model() == Apply(old(Model()), RecordSuccess(recordedAt))
    {
      if Blank(recordedAt) { return false; }
      stage := TerminalSuccess;
      generation := generation.(completedAt := Some(recordedAt));
      outcome := Some(TerminalOutcome(Success, recordedAt, None));
      return true;
    }

    method RecordTerminalFailure(recordedAt: string, detail: string) returns (ok: bool)
      modifies this`stage, this`generation, this`outcome
      ensures ok == !Refused(RecordFailure(recordedAt, detail))
      ensures Model() == Apply(old(Model()), RecordFailure(recordedAt, detail))
    {
      if Blank(recordedAt) { return false; }
      if Blank(detail) { return false; }
      stage := TerminalFailure;
      generation := generation.(completedAt := Some(recordedAt));
      outcome := Some(TerminalOutcome(NonRecoverableFailure, recordedAt, Some(detail)));
      return true;
    }

    /** Accepts exactly the valid journals. A sound one is rejected only for an unpaired
        audit field or for how far it has come. */
    method Validate() returns (error: Option<Error>)
      ensures error.None? <==> IsValid(Model())
      ensures Sound(Model()) && error.Some? ==> AboutProgress(error.value)
      ensures error.Some? ==> RejectedFor(Model(), error.value)
    {
      hide Blank, CheckpointsFine, SubordinatesFine, InventoryFine, StageCoversCheckpoints, TerminalFits, StageInOrder;
      hide Given;
      if schemaVersion != SCHEMA_VERSION { return Some(UnsupportedSchemaVersion); }
      if authority != WorkflowAuthority { return Some(InvalidWorkflowAuthority); }
      if !NamesGiven(Model()) { return Some(EmptyField); }
      var kinds := [MailboxAdmissionWork, ChunkingWork, EmbeddingWork, IndexingWork, PublicationWork];
      for k := 0 to |kinds|
        invariant forall i :: 0 <= i < k ==> InventoryFine(InventoryOf(work, kinds[i]))
      {
        error := ValidateInventory(InventoryOf(work, kinds[k]));
        if error.Some? { InventoriesCover(work, kinds[k]); return; }
      }
      assert InventoriesFine(work) by {
        assert forall i :: 0 <= i < 5 ==> InventoryFine(InventoryOf(work, kinds[i]));
        assert kinds[0] == MailboxAdmissionWork && kinds[1] == ChunkingWork && kinds[2] == EmbeddingWork &&
          kinds[3] == IndexingWork && kinds[4] == PublicationWork;
      }
      error := ValidateSubordinates();
      if error.Some? { return; }
      if audit.workSetFrozen && audit.workSetId.None? { return Some(MissingWorkSet); }
      if !AuditGiven(audit) { return Some(EmptyField); }
      if !AuditPaired(audit) { return Some(UnpairedAudit); }
      error := ValidateCheckpoints();
      if error.Some? { return; }
      if !TerminalFits(stage, outcome, generation.completedAt) { return Some(TerminalMismatch); }
      if !StageInOrder(stage, work, audit) { return Some(StageOutOfOrder); }
    }

    method ValidateInventory(inventory: Inventory) returns (error: Option<Error>)
      ensures error.None? <==> InventoryFine(inventory)
      ensures error.Some? ==> error.value == EmptyField || error.value == PendingAndCompleted
      ensures error == Some(EmptyField) ==>
        exists item :: item in inventory.pending + inventory.completed && Blank(item)
      ensures error == Some(PendingAndCompleted) ==> !(inventory.pending !! inventory.completed)
    {
      hide Blank;
      var pending := inventory.pending;
      while pending != {}
        invariant pending <= inventory.pending
        invariant forall item :: item in inventory.pending - pending ==> !Blank(item) && item !in inventory.completed
      {
        var item :| item in pending;
        if Blank(item) { return Some(EmptyField); }
        if item in inventory.completed { return Some(PendingAndCompleted); }
        pending := pending - {item};
      }
      var completed := inventory.completed;
      while completed != {}
        invariant completed <= inventory.completed
        invariant forall item :: item in inventory.completed - completed ==> !Blank(item)
      {
        var item :| item in completed;
        if Blank(item) { return Some(EmptyField); }
        completed := completed - {item};
      }
      return None;
    }

    method ValidateSubordinates() returns (error: Option<Error>)
      ensures error.None? <==> SubordinatesFine(subordinates)
      ensures error.Some? ==> !AboutProgress(error.value) && RejectedFor(Model(), error.value)
    {
      hide Blank;
      var keys: set<(string, string)> := {};
      for i := 0 to |subordinates|
        invariant forall k :: 0 <= k < i ==> SubordinateFine(subordinates[k])
        invariant forall key :: key in keys <==>
          exists k :: 0 <= k < i && key == (subordinates[k].implementation, subordinates[k].location)
        invariant forall k, l :: 0 <= k < l < i ==>
          || subordinates[k].implementation != subordinates[l].implementation
          || subordinates[k].location != subordinates[l].location
      {
        var s := subordinates[i];
        if Blank(s.implementation) || Blank(s.location) || !Given(s.lastGeneration) { return Some(EmptyField); }
        if s.authority != SubordinateAuthority { return Some(InvalidSubordinateAuthority); }
        var key := (s.implementation, s.location);
        if key in keys {
          var k :| 0 <= k < i && key == (subordinates[k].implementation, subordinates[k].location);
          assert SameKey(subordinates, k, i);
          return Some(DuplicateSubordinate);
        }
        forall k | 0 <= k < i
          ensures subordinates[k].implementation != s.implementation || subordinates[k].location != s.location
        {
          assert (subordinates[k].implementation, subordinates[k].location) in keys;
        }
        keys := keys + {key};
      }
      return None;
    }

    method ValidateCheckpoints() returns (error: Option<Error>)
      ensures error.None? <==> CheckpointsFine(work, checkpoints) && StageCoversCheckpoints(stage, checkpoints)
      ensures error.Some? && CheckpointsFine(work, checkpoints) ==> error.value == StageBehindCheckpoints
      ensures error.Some? ==> RejectedFor(Model(), error.value)
    {
      hide Blank, CheckpointsSeen, CheckpointsFine, StageCoversCheckpoints;
      var keys: set<(WorkKind, string)> := {};
      var furthest: Option<nat> := None;
      assert CheckpointsSeen(work, checkpoints, 0, keys, furthest) by { NoneSeen(work, checkpoints); }
      for i := 0 to |checkpoints|
        invariant CheckpointsSeen(work, checkpoints, i, keys, furthest)
      {
        var c := checkpoints[i];
        var key := (c.kind, c.item);
        var inventory := InventoryOf(work, c.kind);
        if !CheckpointFine(work, c) || key in keys { NotFine(work, checkpoints, i, keys, furthest); }
        if IsTerminal(c.stage) { return Some(TerminalCheckpoint); }
        if Blank(c.item) || Blank(c.recordedAt) { return Some(EmptyField); }
        if key in keys {
          SeenBefore(work, checkpoints, i, keys, furthest);
          return Some(DuplicateCheckpoint);
        }
        if c.item !in inventory.completed { return Some(CheckpointNotCompleted); }
        if c.item in inventory.pending { return Some(CheckpointPending); }
        CheckpointsSeenMore(work, checkpoints, i, keys, furthest);
        keys := keys + {key};
        var rank := Rank(c.stage);
        furthest := Some(if furthest.Some? && furthest.value > rank then furthest.value else rank);
      }
      AllSeen(work, checkpoints, keys, furthest, stage);
      if furthest.Some? && Rank(stage) < furthest.value {
        SomeIsAhead(stage, checkpoints);
        return Some(StageBehindCheckpoints);
      }
      return None;
    }
  }

  lemma SeenBefore(work: Inventories, checkpoints: seq<Checkpoint>, n: nat, keys: set<(WorkKind, string)>,
                   furthest: Option<nat>)
    requires n < |checkpoints| && CheckpointsSeen(work, checkpoints, n, keys, furthest)
    requires (checkpoints[n].kind, checkpoints[n].item) in keys
    ensures exists i, k :: 0 <= i < k < |checkpoints| && SameItem(checkpoints, i, k)
  {
    var i :| 0 <= i < n && (checkpoints[n].kind, checkpoints[n].item) == (checkpoints[i].kind, checkpoints[i].item);
    assert SameItem(checkpoints, i, n);
  }

  lemma SomeIsAhead(stage: Stage, checkpoints: seq<Checkpoint>)
    requires !StageCoversCheckpoints(stage, checkpoints)
    ensures exists c :: c in checkpoints && Rank(c.stage) > Rank(stage)
  {
    var i :| 0 <= i < |checkpoints| && Rank(checkpoints[i].stage) > Rank(stage);
    assert checkpoints[i] in checkpoints;
  }

  lemma NoneSeen(work: Inventories, checkpoints: seq<Checkpoint>)
    ensures CheckpointsSeen(work, checkpoints, 0, {}, None)
  {
  }

  lemma InventoriesCover(work: Inventories, kind: WorkKind)
    requires !InventoryFine(InventoryOf(work, kind))
    ensures !InventoriesFine(work)
  {
  }

  lemma UpsertFound(subordinates: seq<Subordinate>, i: nat, entry: Subordinate)
    requires i < |subordinates|
    requires subordinates[i].implementation == entry.implementation && subordinates[i].location == entry.location
    ensures subordinates[..i] + Upserted(subordinates[i..], entry) == subordinates[i := entry]
  {
    assert subordinates[i..][1..] == subordinates[i + 1..];
    assert subordinates[i := entry] == subordinates[..i] + ([entry] + subordinates[i + 1..]);
  }

  lemma UpsertNotFound(subordinates: seq<Subordinate>, entry: Subordinate)
    ensures subordinates[..|subordinates|] + Upserted(subordinates[|subordinates|..], entry) == subordinates + [entry]
  {
    assert subordinates[..|subordinates|] == subordinates && Upserted([], entry) == [entry];
  }

  lemma UpsertSkips(subordinates: seq<Subordinate>, i: nat, entry: Subordinate)
    requires i < |subordinates|
    requires subordinates[i].implementation != entry.implementation || subordinates[i].location != entry.location
    ensures subordinates[..i] + Upserted(subordinates[i..], entry) ==
      subordinates[..i + 1] + Upserted(subordinates[i + 1..], entry)
  {
    assert subordinates[i..] == [subordinates[i]] + subordinates[i + 1..];
  }
}
