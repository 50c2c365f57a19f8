/**
 The worker's database transactions. Each is one `SELECT ... FOR UPDATE` to `commit` of the source:
 a guard on the locked row, and the row as it is written back. `ok` is the source's boolean result.
 */
module Processor {
  import opened Wrappers
  import opened Entities

  datatype Settings = Settings(
    leaseSeconds: nat, retrySeconds: nat, maxAttempts: nat, quotaBytes: nat, uploadMaxBytes: nat, uploadTtlSeconds: nat)

  // What a worker remembers about the run it claimed.
  datatype ClaimedRun = ClaimedRun(
    run: RunId, document: DocumentId, attemptCount: nat, classificationOverride: Option<Classification>)

  // The outcome of one transaction: the tables after commit, and what it reported.
  datatype Tx = Tx(db: Tables, ok: bool)

  const ACTIVE: set<RunStatus> := {Preprocessing, Extracting, Validating}

  /** The guard every worker transaction shares: status, ownership and the joined document. */
  predicate Guard(db: Tables, c: ClaimedRun, w: WorkerId, statuses: set<RunStatus>) {
    && c.run in db.runs
    && db.runs[c.run].document in db.documents
    && db.runs[c.run].status in statuses
    && db.runs[c.run].workerId == Some(w)
  }

  predicate GuardNotCancelled(db: Tables, c: ClaimedRun, w: WorkerId, statuses: set<RunStatus>) {
    Guard(db, c, w, statuses) && db.runs[c.run].cancellationRequestedAt.None?
  }

  /** Write run `r` back together with its document's status. */
  function WriteBack(db: Tables, r: RunId, run: Run, status: DocumentStatus): Tables
    requires run.document in db.documents
  {
    db.(runs := db.runs[r := run],
        documents := db.documents[run.document := db.documents[run.document].(status := status)])
  }

  /** The run as a terminal or requeued row: no worker, no lease. */
  function Released(run: Run, status: RunStatus): Run {
    run.(status := status, workerId := None, leaseExpiresAt := None)
  }

  predicate Claimable(db: Tables, now: int, r: RunId) {
    && r in db.runs
    && db.runs[r].document in db.documents
    && var run := db.runs[r];
       var document := db.documents[run.document];
       && document.key.Some?
       && document.sha256.Some?
       && (|| (run.status == Queued && run.queuedAt <= now)
           || (Active(run.status) && (run.leaseExpiresAt.None? || run.leaseExpiresAt.value < now)))
  }

  function ClaimNextRun(db: Tables, cfg: Settings, now: int, w: WorkerId, r: RunId): (Tables, ClaimedRun)
    requires Claimable(db, now, r)
  {
    var run := db.runs[r].(
      status := Preprocessing,
      workerId := Some(w),
      leaseExpiresAt := Some(now + cfg.leaseSeconds),
      attemptCount := db.runs[r].attemptCount + 1);
    var override := if run.classificationOverride then run.classification else None;
    (WriteBack(db, r, run, DocumentStatus.Processing), ClaimedRun(r, run.document, run.attemptCount, override))
  }

  function MaintainLease(db: Tables, cfg: Settings, now: int, c: ClaimedRun, w: WorkerId): Tx {
    if c.run in db.runs && db.runs[c.run].status in ACTIVE && db.runs[c.run].workerId == Some(w) then
      Tx(db.(runs := db.runs[c.run := db.runs[c.run].(leaseExpiresAt := Some(now + cfg.leaseSeconds))]), true)
    else Tx(db, false)
  }

  function SetProgressStage(db: Tables, cfg: Settings, now: int, c: ClaimedRun, w: WorkerId): Tx {
    if && c.run in db.runs
       && db.runs[c.run].status == Extracting
       && db.runs[c.run].workerId == Some(w)
       && db.runs[c.run].cancellationRequestedAt.None?
    then Tx(db.(runs := db.runs[c.run := db.runs[c.run].(leaseExpiresAt := Some(now + cfg.leaseSeconds))]), true)
    else Tx(db, false)
  }

  function AdvanceStage(
    db: Tables, cfg: Settings, now: int, c: ClaimedRun, w: WorkerId, expected: RunStatus, next: RunStatus): Tx
  {
    if GuardNotCancelled(db, c, w, {expected}) then
      var run := db.runs[c.run].(status := next, leaseExpiresAt := Some(now + cfg.leaseSeconds));
      Tx(db.(runs := db.runs[c.run := run]), true)
    else Tx(db, false)
  }

  /** The unique index over successful runs of one document and one configuration. */
  predicate SuccessIndexAdmits(db: Tables, r: RunId)
    requires r in db.runs
  {
    forall q :: q in db.runs && q != r && db.runs[q].status == Succeeded && db.runs[q].document == db.runs[r].document
      ==> db.runs[q].config != db.runs[r].config
  }

  /** Commits a result and the success together; a violated unique index aborts instead. */
  function CompleteRun(db: Tables, c: ClaimedRun, w: WorkerId, classification: Classification): Tx {
    if GuardNotCancelled(db, c, w, {Validating}) && SuccessIndexAdmits(db, c.run) then
      var run := Released(db.runs[c.run], Succeeded).(classification := Some(classification));
      Tx(WriteBack(db, c.run, run, DocumentStatus.Ready).(results := db.results + {c.run}), true)
    else Tx(db, false)
  }

  function BlockRunForScope(db: Tables, c: ClaimedRun, w: WorkerId, decision: Classification): Tx {
    if GuardNotCancelled(db, c, w, {Extracting}) then
      var uncertain := decision.scope == Uncertain;
      var status := if uncertain then RunStatus.NeedsConfirmation else RunStatus.Unsupported;
      var run := Released(db.runs[c.run], status).(classification := Some(decision));
      Tx(WriteBack(db, c.run, run,
                   if uncertain then DocumentStatus.NeedsConfirmation else DocumentStatus.Unsupported), true)
    else Tx(db, false)
  }

  function FailRun(db: Tables, c: ClaimedRun, w: WorkerId): Tx {
    if GuardNotCancelled(db, c, w, ACTIVE) then
      Tx(WriteBack(db, c.run, Released(db.runs[c.run], RunStatus.Failed), DocumentStatus.Failed), true)
    else Tx(db, false)
  }

  predicate PriorSuccess(db: Tables, r: RunId)
    requires r in db.runs
  {
    exists q :: q in db.runs && q != r && db.runs[q].document == db.runs[r].document && db.runs[q].status == Succeeded
  }

  function CancelledDocumentStatus(db: Tables, r: RunId): DocumentStatus
    requires r in db.runs
  {
    if PriorSuccess(db, r) then DocumentStatus.Ready else DocumentStatus.Failed
  }

  function AcknowledgeCancellation(db: Tables, c: ClaimedRun, w: WorkerId): Tx {
    if Guard(db, c, w, ACTIVE) && db.runs[c.run].cancellationRequestedAt.Some? then
      Tx(WriteBack(db, c.run, Released(db.runs[c.run], Cancelled), CancelledDocumentStatus(db, c.run)), true)
    else Tx(db, false)
  }

  function RequeueRateLimitedRun(db: Tables, cfg: Settings, now: int, c: ClaimedRun, w: WorkerId): Tx {
    if GuardNotCancelled(db, c, w, ACTIVE) then
      var run := Released(db.runs[c.run], Queued).(queuedAt := now + cfg.retrySeconds);
      Tx(WriteBack(db, c.run, run, DocumentStatus.Uploaded), true)
    else Tx(db, false)
  }
}
