/**
 The rows of the pipeline's tables, with the columns its guards and updates depend on.
 Identifiers are opaque numbers; times are seconds.
 */
module Entities {
  import opened Wrappers

  type DocumentId = nat
  type RunId = nat
  type WorkerId = nat
  type WorkspaceId = nat
  type Byte = bv8

  // A content hash that is injective by construction: two equal digests have equal preimages.
  datatype Digest = Sha256(preimage: seq<Byte>)

  // Object keys of the two disjoint prefixes; `ObjectKeys` relates them to the stored strings.
  datatype Key = Incoming(opaqueId: nat) | Originals(opaqueId: nat)

  datatype DocumentStatus =
    | UploadPending | Uploaded | Processing | Ready | Failed | NeedsConfirmation | Unsupported

  datatype RunStatus =
    | Queued | Preprocessing | Extracting | Validating
    | Succeeded | Failed | Cancelled | NeedsConfirmation | Unsupported

  datatype Scope = Supported | Unrelated | Uncertain

  datatype Classification = Classification(scope: Scope, documentType: string, confidence: real, reasonCode: string)

  datatype RunConfig = RunConfig(
    provider: string, modelId: string, promptVersion: string, schemaVersion: string, preprocessingVersion: string)

  datatype Document = Document(
    workspace: WorkspaceId,
    byteSize: nat,
    sha256: Option<Digest>,
    key: Option<Key>,
    status: DocumentStatus,
    uploadExpiresAt: Option<int>,
    originalDeletedAt: Option<int>,
    createdAt: int)

  datatype Run = Run(
    document: DocumentId,
    config: RunConfig,
    status: RunStatus,
    attemptCount: nat,
    workerId: Option<WorkerId>,
    leaseExpiresAt: Option<int>,
    cancellationRequestedAt: Option<int>,
    classification: Option<Classification>,
    classificationOverride: bool,
    queuedAt: int,
    createdAt: int)

  /** Documents, processing runs, and the runs that own an extraction result. */
  datatype Tables = Tables(documents: map<DocumentId, Document>, runs: map<RunId, Run>, results: set<RunId>)

  predicate Active(status: RunStatus) {
    status.Preprocessing? || status.Extracting? || status.Validating?
  }

  predicate Live(status: RunStatus) {
    status.Queued? || Active(status)
  }

  predicate OriginalAvailable(document: Document) {
    document.key.Some? && document.sha256.Some? && document.originalDeletedAt.None?
  }

  predicate HasLiveRun(db: Tables, d: DocumentId) {
    exists r :: r in db.runs && db.runs[r].document == d && Live(db.runs[r].status)
  }

  /** Row deletion with the cascade from documents to runs and from runs to results. */
  function DeleteDocument(db: Tables, d: DocumentId): Tables {
    var kept := map r | r in db.runs && db.runs[r].document != d :: db.runs[r];
    Tables(db.documents - {d}, kept, db.results * kept.Keys)
  }

  /** `r` is the run of `d` that a query ordered by (queued_at, id) descending returns first. */
  predicate IsLatestRun(db: Tables, d: DocumentId, r: RunId) {
    && r in db.runs
    && db.runs[r].document == d
    && forall q :: q in db.runs && db.runs[q].document == d ==>
         db.runs[q].queuedAt < db.runs[r].queuedAt || (db.runs[q].queuedAt == db.runs[r].queuedAt && q <= r)
  }
}
