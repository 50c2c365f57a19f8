/**
 The users' transactions on documents and runs. A refused request (404, 409, 403) leaves the tables alone;
 each predicate below is the guard under which the handler commits.
 */
module Requests {
  import opened Wrappers
  import opened Entities
  import opened Processor

  function QueuedRun(
    d: DocumentId, config: RunConfig, override: bool, classification: Option<Classification>, now: int): Run
  {
    Run(d, config, Queued, 0, None, None, None, classification, override, now, now)
  }

  /** Insert a queued run; the document goes back to `uploaded`. */
  function Enqueue(db: Tables, r: RunId, run: Run): Tables
    requires run.document in db.documents
  {
    WriteBack(db, r, run, DocumentStatus.Uploaded)
  }

  predicate ScopeAllowsNewRun(document: Document) {
    !document.status.Unsupported? && !document.status.NeedsConfirmation?
  }

  /** The cache and coalescing lookup: a live or successful run of this configuration. */
  predicate ConfiguredRunExists(db: Tables, d: DocumentId, config: RunConfig) {
    exists q :: q in db.runs && db.runs[q].document == d && db.runs[q].config == config
             && (db.runs[q].status == Succeeded || Live(db.runs[q].status))
  }

  predicate CanCreateRun(db: Tables, d: DocumentId, config: RunConfig, force: bool) {
    && d in db.documents
    && OriginalAvailable(db.documents[d])
    && ScopeAllowsNewRun(db.documents[d])
    && (force || !ConfiguredRunExists(db, d, config))
  }

  function CreateRun(db: Tables, now: int, d: DocumentId, r: RunId, config: RunConfig): Tables
    requires d in db.documents
  {
    Enqueue(db, r, QueuedRun(d, config, false, None, now))
  }

  predicate CanRetry(db: Tables, d: DocumentId, latest: RunId) {
    && d in db.documents
    && OriginalAvailable(db.documents[d])
    && IsLatestRun(db, d, latest)
    && db.runs[latest].status == RunStatus.Failed
  }

  /** A retry inherits the classification and the override of the run it retries. */
  function RetryRun(db: Tables, now: int, d: DocumentId, latest: RunId, r: RunId, config: RunConfig): Tables
    requires d in db.documents && latest in db.runs
  {
    var failed := db.runs[latest];
    Enqueue(db, r, QueuedRun(d, config, failed.classificationOverride, failed.classification, now))
  }

  predicate CanConfirm(db: Tables, d: DocumentId, latest: RunId) {
    && d in db.documents
    && OriginalAvailable(db.documents[d])
    && db.documents[d].status == DocumentStatus.NeedsConfirmation
    && IsLatestRun(db, d, latest)
    && db.runs[latest].status == RunStatus.NeedsConfirmation
    && db.runs[latest].classification.Some?
    && db.runs[latest].classification.value.scope == Uncertain
  }

  /** A confirmed run keeps provider and model, and carries the uncertain decision as a manual override. */
  function ConfirmRun(db: Tables, now: int, d: DocumentId, latest: RunId, r: RunId, forced: RunConfig): Tables
    requires d in db.documents && latest in db.runs
  {
    var blocked := db.runs[latest];
    var config := forced.(provider := blocked.config.provider, modelId := blocked.config.modelId);
    Enqueue(db, r, QueuedRun(d, config, true, blocked.classification, now))
  }

  predicate CanCancel(db: Tables, r: RunId) {
    && r in db.runs
    && db.runs[r].document in db.documents
    && Live(db.runs[r].status)
  }

  /** A queued run is cancelled at once; an active one is only marked, and its worker acknowledges. */
  function CancelRun(db: Tables, now: int, r: RunId): Tables
    requires CanCancel(db, r)
  {
    var run := db.runs[r];
    if run.status == Queued then
      WriteBack(db, r, Released(run, Cancelled).(cancellationRequestedAt := Some(now)), CancelledDocumentStatus(db, r))
    else if run.cancellationRequestedAt.None? then
      db.(runs := db.runs[r := run.(cancellationRequestedAt := Some(now))])
    else db
  }
}
