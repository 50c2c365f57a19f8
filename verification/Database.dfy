/**
 The transactions as the handlers and the worker perform them: rows are read, changed column by column and
 written back. Each method is tied to the transaction function the protocol's theorems are about.
 */
module Database {
  import opened Wrappers
  import opened Entities
  import opened Processor
  import opened Sequences
  import Requests
  import Uploads

  // ---------- the orders in which rows are looked up ----------

  /** By due time, ties broken by id. */
  predicate QueuedBefore(runs: map<RunId, Run>, q: RunId, r: RunId) {
    && q in runs && r in runs
    && (runs[q].queuedAt < runs[r].queuedAt || (runs[q].queuedAt == runs[r].queuedAt && q <= r))
  }

  function FirstQueued(runs: map<RunId, Run>): (RunId, RunId) -> bool {
    (q: RunId, r: RunId) => QueuedBefore(runs, q, r)
  }

  function LastQueued(runs: map<RunId, Run>): (RunId, RunId) -> bool {
    (q: RunId, r: RunId) => QueuedBefore(runs, r, q)
  }

  /** Successes first, then the latest queued, then the greatest id. */
  predicate Preferred(runs: map<RunId, Run>, q: RunId, r: RunId) {
    && q in runs && r in runs
    && if (runs[q].status == Succeeded) != (runs[r].status == Succeeded) then runs[q].status == Succeeded
       else QueuedBefore(runs, r, q)
  }

  function ByPreference(runs: map<RunId, Run>): (RunId, RunId) -> bool {
    (q: RunId, r: RunId) => Preferred(runs, q, r)
  }

  predicate Configured(runs: map<RunId, Run>, d: DocumentId, config: RunConfig, q: RunId) {
    && q in runs && runs[q].document == d && runs[q].config == config
    && (runs[q].status == Succeeded || Live(runs[q].status))
  }

  lemma ConfiguredRuns(db: Tables, d: DocumentId, config: RunConfig)
    ensures Requests.ConfiguredRunExists(db, d, config) <==> exists q :: Configured(db.runs, d, config, q)
  {
    if Requests.ConfiguredRunExists(db, d, config) {
      var q :| && q in db.runs && db.runs[q].document == d && db.runs[q].config == config
               && (db.runs[q].status == Succeeded || Live(db.runs[q].status));
      assert Configured(db.runs, d, config, q);
    }
  }

  predicate ExpiredUpload(documents: map<DocumentId, Document>, now: int, d: DocumentId) {
    && d in documents
    && documents[d].status == UploadPending
    && documents[d].uploadExpiresAt.Some?
    && documents[d].uploadExpiresAt.value < now
  }

  /** By deadline, ties broken by id. */
  predicate ExpiresBefore(documents: map<DocumentId, Document>, d: DocumentId, e: DocumentId) {
    && d in documents && e in documents
    && match (documents[d].uploadExpiresAt, documents[e].uploadExpiresAt)
       case (Some(s), Some(t)) => s < t || (s == t && d <= e)
       case _ => false
  }

  function ByDeadline(documents: map<DocumentId, Document>): (DocumentId, DocumentId) -> bool {
    (d: DocumentId, e: DocumentId) => ExpiresBefore(documents, d, e)
  }

  // HTTP refusals of the handlers.
  datatype Refusal = NotFound | Conflict | TooLarge | InsufficientStorage

  /** The bucket behind the presigned URLs. */
  class Bucket {
    var objects: map<Key, seq<Byte>>

    constructor ()
      ensures objects == map[]
    {
      objects := map[];
    }

    method Put(key: Key, body: seq<Byte>)
      modifies this
      ensures objects == old(objects)[key := body]
    {
      objects := objects[key := body];
    }

    method Delete(key: Key)
      modifies this
      ensures objects == old(objects) - {key}
    {
      objects := objects - {key};
    }
  }

  class Session {
    var documents: map<DocumentId, Document>
    var runs: map<RunId, Run>
    var results: set<RunId>
    /** The pending object deletions, oldest first. */
    var outbox: seq<Key>

    ghost function State(): Tables
      reads this
    {
      Tables(documents, runs, results)
    }

    constructor ()
      ensures State() == Tables(map[], map[], {}) && outbox == []
    {
      documents, runs, results, outbox := map[], map[], {}, [];
    }

    // ---------- the worker ----------

    /** `locked` are the rows other transactions hold; they are skipped. */
    predicate Eligible(now: int, locked: set<RunId>, r: RunId)
      reads this
    {
      r !in locked && Processor.Claimable(Tables(documents, runs, results), now, r)
    }

    /** Claims the eligible run that was queued first, or reports that there is none. */
    method ClaimNextRun(cfg: Settings, now: int, w: WorkerId, locked: set<RunId>) returns (claim: Option<ClaimedRun>)
      modifies this`runs, this`documents
      ensures claim.None? ==> State() == old(State()) && forall r :: r in old(runs) ==> !old(Eligible(now, locked, r))
      ensures claim.Some? ==>
                var r := claim.value.run;
                && old(Eligible(now, locked, r))
                && (State(), claim.value) == Processor.ClaimNextRun(old(State()), cfg, now, w, r)
                && forall q :: q in old(runs) && old(Eligible(now, locked, q)) ==>
                     || old(runs)[r].queuedAt < old(runs)[q].queuedAt
                     || (old(runs)[r].queuedAt == old(runs)[q].queuedAt && r <= q)
    {
      var candidates := set r | r in runs && Eligible(now, locked, r);
      if candidates == {} {
        assert forall r :: r in runs && Eligible(now, locked, r) ==> r in candidates;
        return None;
      }
      FirstExists<RunId>(candidates, FirstQueued(runs));
      var r :| IsFirst<RunId>(candidates, FirstQueued(runs), r);
      forall q | q in runs && Eligible(now, locked, q) ensures QueuedBefore(runs, r, q) {
        assert q in candidates && FirstQueued(runs)(r, q);
      }
      var run := runs[r];
      run := run.(status := Preprocessing);
      run := run.(workerId := Some(w), leaseExpiresAt := Some(now + cfg.leaseSeconds));
      run := run.(attemptCount := run.attemptCount + 1);
      runs := runs[r := run];
      documents := documents[run.document := documents[run.document].(status := DocumentStatus.Processing)];
      var override := if run.classificationOverride then run.classification else None;
      claim := Some(ClaimedRun(r, run.document, run.attemptCount, override));
    }

    predicate Held(c: ClaimedRun, w: WorkerId)
      reads this
    {
      c.run in runs && runs[c.run].document in documents && runs[c.run].workerId == Some(w)
    }

    /** One beat of the lease heartbeat; `alive` is false when the heartbeat stops. */
    method MaintainLease(cfg: Settings, now: int, c: ClaimedRun, w: WorkerId) returns (alive: bool)
      modifies this`runs
      ensures var tx := Processor.MaintainLease(old(State()), cfg, now, c, w); State() == tx.db && alive == tx.ok
    {
      if c.run !in runs || !Active(runs[c.run].status) || runs[c.run].workerId != Some(w) {
        return false;
      }
      runs := runs[c.run := runs[c.run].(leaseExpiresAt := Some(now + cfg.leaseSeconds))];
      return true;
    }

    /** A progress report extends the lease; `done` is false when the guard refused it. */
    method SetProgressStage(cfg: Settings, now: int, c: ClaimedRun, w: WorkerId) returns (done: bool)
      modifies this`runs
      ensures var tx := Processor.SetProgressStage(old(State()), cfg, now, c, w); State() == tx.db && done == tx.ok
    {
      if c.run !in runs || runs[c.run].status != Extracting || runs[c.run].workerId != Some(w)
         || runs[c.run].cancellationRequestedAt.Some? {
        return false;
      }
      runs := runs[c.run := runs[c.run].(leaseExpiresAt := Some(now + cfg.leaseSeconds))];
      return true;
    }

    method AdvanceStage(cfg: Settings, now: int, c: ClaimedRun, w: WorkerId, expected: RunStatus, next: RunStatus)
      returns (ok: bool)
      modifies this`runs
      ensures var tx := Processor.AdvanceStage(old(State()), cfg, now, c, w, expected, next);
              State() == tx.db && ok == tx.ok
    {
      if !Held(c, w) || runs[c.run].status != expected || runs[c.run].cancellationRequestedAt.Some? {
        return false;
      }
      var run := runs[c.run];
      run := run.(status := next);
      run := run.(leaseExpiresAt := Some(now + cfg.leaseSeconds));
      runs := runs[c.run := run];
      return true;
    }

    method CompleteRun(c: ClaimedRun, w: WorkerId, classification: Classification) returns (ok: bool)
      modifies this`runs, this`documents, this`results
      ensures var tx := Processor.CompleteRun(old(State()), c, w, classification); State() == tx.db && ok == tx.ok
    {
      if !Held(c, w) || runs[c.run].status != Validating || runs[c.run].cancellationRequestedAt.Some? {
        return false;
      }
      if exists q :: q in runs && q != c.run && runs[q].status == Succeeded
                     && runs[q].document == runs[c.run].document && runs[q].config == runs[c.run].config {
        return false;  // the unique index refuses the commit
      }
      var run := runs[c.run];
      run := run.(classification := Some(classification));
      results := results + {c.run};
      run := run.(status := Succeeded, workerId := None, leaseExpiresAt := None);
      runs := runs[c.run := run];
      documents := documents[run.document := documents[run.document].(status := DocumentStatus.Ready)];
      return true;
    }

    method BlockRunForScope(c: ClaimedRun, w: WorkerId, decision: Classification) returns (ok: bool)
      modifies this`runs, this`documents
      ensures var tx := Processor.BlockRunForScope(old(State()), c, w, decision); State() == tx.db && ok == tx.ok
    {
      if !Held(c, w) || runs[c.run].status != Extracting || runs[c.run].cancellationRequestedAt.Some? {
        return false;
      }
      var run := runs[c.run];
      var document := documents[run.document];
      if decision.scope == Uncertain {
        run := run.(status := RunStatus.NeedsConfirmation);
        document := document.(status := DocumentStatus.NeedsConfirmation);
      } else {
        run := run.(status := RunStatus.Unsupported);
        document := document.(status := DocumentStatus.Unsupported);
      }
      run := run.(classification := Some(decision), workerId := None, leaseExpiresAt := None);
      runs := runs[c.run := run];
      documents := documents[run.document := document];
      return true;
    }

    method FailRun(c: ClaimedRun, w: WorkerId)
      modifies this`runs, this`documents
      ensures State() == Processor.FailRun(old(State()), c, w).db
    {
      if !Held(c, w) || !Active(runs[c.run].status) || runs[c.run].cancellationRequestedAt.Some? {
        return;
      }
      var run := runs[c.run];
      run := run.(status := RunStatus.Failed);
      run := run.(workerId := None, leaseExpiresAt := None);
      runs := runs[c.run := run];
      documents := documents[run.document := documents[run.document].(status := DocumentStatus.Failed)];
    }

    method AcknowledgeCancellation(c: ClaimedRun, w: WorkerId) returns (ok: bool)
      modifies this`runs, this`documents
      ensures var tx := Processor.AcknowledgeCancellation(old(State()), c, w); State() == tx.db && ok == tx.ok
    {
      if !Held(c, w) || !Active(runs[c.run].status) || runs[c.run].cancellationRequestedAt.None? {
        return false;
      }
      var run := runs[c.run];
      run := run.(status := Cancelled, workerId := None, leaseExpiresAt := None);
      var priorSuccess := exists q :: q in runs && q != c.run && runs[q].document == run.document
                                      && runs[q].status == Succeeded;
      runs := runs[c.run := run];
      var status := if priorSuccess then DocumentStatus.Ready else DocumentStatus.Failed;
      documents := documents[run.document := documents[run.document].(status := status)];
      return true;
    }

    method RequeueRateLimitedRun(cfg: Settings, now: int, c: ClaimedRun, w: WorkerId)
      modifies this`runs, this`documents
      ensures State() == Processor.RequeueRateLimitedRun(old(State()), cfg, now, c, w).db
    {
      if !Held(c, w) || !Active(runs[c.run].status) || runs[c.run].cancellationRequestedAt.Some? {
        return;
      }
      var run := runs[c.run];
      run := run.(status := Queued);
      run := run.(workerId := None, leaseExpiresAt := None);
      run := run.(queuedAt := now + cfg.retrySeconds);
      runs := runs[c.run := run];
      documents := documents[run.document := documents[run.document].(status := DocumentStatus.Uploaded)];
    }

    // ---------- requests on runs ----------

    method CancelRun(now: int, r: RunId) returns (answer: Result<RunStatus, Refusal>)
      modifies this`runs, this`documents
      ensures old(Requests.CanCancel(State(), r)) ==>
                State() == Requests.CancelRun(old(State()), now, r) && answer.Ok?
      ensures !old(Requests.CanCancel(State(), r)) ==> State() == old(State())
      ensures !old(Requests.CanCancel(State(), r)) && answer.Ok? ==> r in old(runs) && old(runs)[r].status == Cancelled
      ensures answer.Ok? ==> r in runs && answer.value == runs[r].status
      ensures answer.Err? <==>
                || r !in old(runs) || old(runs)[r].document !in old(documents)
                || (!Live(old(runs)[r].status) && old(runs)[r].status != Cancelled)
      ensures answer.Err? ==>
                answer.error == if r in old(runs) && old(runs)[r].document in old(documents) then Conflict else NotFound
    {
      if r !in runs || runs[r].document !in documents {
        return Err(NotFound);
      }
      var run := runs[r];
      if run.status == Cancelled {
        return Ok(Cancelled);
      }
      if !Live(run.status) {
        return Err(Conflict);
      }
      if run.status != Queued {
        if run.cancellationRequestedAt.None? {
          runs := runs[r := run.(cancellationRequestedAt := Some(now))];
        }
        return Ok(run.status);
      }
      run := run.(status := Cancelled);
      run := run.(cancellationRequestedAt := Some(now), workerId := None, leaseExpiresAt := None);
      var priorSuccess := exists q :: q in runs && q != r && runs[q].document == run.document
                                      && runs[q].status == Succeeded;
      runs := runs[r := run];
      var status := if priorSuccess then DocumentStatus.Ready else DocumentStatus.Failed;
      documents := documents[run.document := documents[run.document].(status := status)];
      return Ok(Cancelled);
    }

    /** Answers with the run to follow: a new one, or the preferred live or successful one of the same configuration. */
    method CreateProcessingRun(now: int, d: DocumentId, r: RunId, config: RunConfig, force: bool)
      returns (answer: Result<RunId, Refusal>)
      requires r !in runs
      modifies this`runs, this`documents
      ensures old(Requests.CanCreateRun(State(), d, config, force)) ==>
                State() == Requests.CreateRun(old(State()), now, d, r, config) && answer == Ok(r)
      ensures !old(Requests.CanCreateRun(State(), d, config, force)) ==>
                && State() == old(State())
                && (answer.Ok? ==>
                      && !force && Configured(old(runs), d, config, answer.value)
                      && forall q: RunId :: Configured(old(runs), d, config, q) ==>
                           var a, b := old(runs)[answer.value], old(runs)[q];
                           && (b.status == Succeeded ==> a.status == Succeeded)
                           && ((a.status == Succeeded) == (b.status == Succeeded) ==>
                                 b.queuedAt < a.queuedAt || (b.queuedAt == a.queuedAt && q <= answer.value)))
      ensures answer.Err? <==>
                || d !in old(documents) || !OriginalAvailable(old(documents)[d])
                || old(documents)[d].status in {DocumentStatus.Unsupported, DocumentStatus.NeedsConfirmation}
      ensures answer.Err? ==> answer.error == if d in old(documents) then Conflict else NotFound
    {
      if d !in documents {
        return Err(NotFound);
      }
      if !OriginalAvailable(documents[d]) || !Requests.ScopeAllowsNewRun(documents[d]) {
        return Err(Conflict);
      }
      if !force {
        ConfiguredRuns(State(), d, config);
        var existing := set q | q in runs && Configured(runs, d, config, q);
        if existing != {} {
          FirstExists<RunId>(existing, ByPreference(runs));
          var q :| IsFirst<RunId>(existing, ByPreference(runs), q);
          forall other | Configured(runs, d, config, other) ensures Preferred(runs, q, other) {
            assert other in existing && ByPreference(runs)(q, other);
          }
          return Ok(q);
        }
        assert forall q :: Configured(runs, d, config, q) ==> q in existing;
      }
      runs := runs[r := Run(d, config, Queued, 0, None, None, None, None, false, now, now)];
      documents := documents[d := documents[d].(status := DocumentStatus.Uploaded)];
      return Ok(r);
    }

    /** The document's run that was queued last, ties broken by id. */
    method LatestRun(d: DocumentId) returns (latest: Option<RunId>)
      ensures latest.Some? ==> IsLatestRun(State(), d, latest.value)
      ensures latest.None? ==> forall r :: r in runs ==> runs[r].document != d
    {
      var candidates := set r | r in runs && runs[r].document == d;
      if candidates == {} {
        assert forall r :: r in runs && runs[r].document == d ==> r in candidates;
        return None;
      }
      FirstExists<RunId>(candidates, LastQueued(runs));
      var r :| IsFirst<RunId>(candidates, LastQueued(runs), r);
      forall q | q in runs && runs[q].document == d ensures QueuedBefore(runs, q, r) {
        assert q in candidates && LastQueued(runs)(r, q);
      }
      return Some(r);
    }

    /** A retry is granted exactly for a document whose original is available and whose latest run failed. */
    method RetryDocumentProcessing(now: int, d: DocumentId, r: RunId, config: RunConfig)
      returns (answer: Result<RunId, Refusal>, ghost latest: RunId)
      requires r !in runs
      modifies this`runs, this`documents
      ensures answer.Ok? ==>
                && answer.value == r && old(Requests.CanRetry(State(), d, latest))
                && State() == Requests.RetryRun(old(State()), now, d, latest, r, config)
      ensures answer.Err? ==> State() == old(State()) && forall q :: !old(Requests.CanRetry(State(), d, q))
      ensures answer.Err? ==> answer.error == if d in old(documents) then Conflict else NotFound
    {
      latest := 0;
      if d !in documents {
        return Err(NotFound), latest;
      }
      if !OriginalAvailable(documents[d]) {
        return Err(Conflict), latest;
      }
      var last := LatestRun(d);
      if last.None? {
        return Err(Conflict), latest;
      }
      latest := last.value;
      if runs[last.value].status != RunStatus.Failed {
        assert forall q :: Requests.CanRetry(State(), d, q) ==> q == latest;
        return Err(Conflict), latest;
      }
      var failed := runs[last.value];
      runs := runs[r := Run(d, config, Queued, 0, None, None, None, failed.classification,
                            failed.classificationOverride, now, now)];
      documents := documents[d := documents[d].(status := DocumentStatus.Uploaded)];
      return Ok(r), latest;
    }

    /** A confirmation is granted exactly for a document blocked as uncertain by its latest run. */
    method ConfirmDocumentProcessing(now: int, d: DocumentId, r: RunId, forced: RunConfig)
      returns (answer: Result<RunId, Refusal>, ghost latest: RunId)
      requires r !in runs
      modifies this`runs, this`documents
      ensures answer.Ok? ==>
                && answer.value == r && old(Requests.CanConfirm(State(), d, latest))
                && State() == Requests.ConfirmRun(old(State()), now, d, latest, r, forced)
      ensures answer.Err? ==> State() == old(State()) && forall q :: !old(Requests.CanConfirm(State(), d, q))
      ensures answer.Err? ==> answer.error == if d in old(documents) then Conflict else NotFound
    {
      latest := 0;
      if d !in documents {
        return Err(NotFound), latest;
      }
      if !OriginalAvailable(documents[d]) {
        return Err(Conflict), latest;
      }
      var last := LatestRun(d);
      if documents[d].status != DocumentStatus.NeedsConfirmation || last.None? {
        return Err(Conflict), latest;
      }
      latest := last.value;
      var blocked := runs[last.value];
      if blocked.status != RunStatus.NeedsConfirmation || blocked.classification.None?
         || blocked.classification.value.scope != Uncertain {
        assert forall q :: Requests.CanConfirm(State(), d, q) ==> q == latest;
        return Err(Conflict), latest;
      }
      var config := forced.(provider := blocked.config.provider, modelId := blocked.config.modelId);
      runs := runs[r := Run(d, config, Queued, 0, None, None, None, blocked.classification, true, now, now)];
      documents := documents[d := documents[d].(status := DocumentStatus.Uploaded)];
      return Ok(r), latest;
    }

    // ---------- uploads ----------

    /** The quota's sum over the documents that hold a key. */
    method UsedStorageBytes() returns (used: nat)
      ensures used == Uploads.UsedBytes(documents)
    {
      used := 0;
      var rest := documents;
      while rest != map[]
        invariant used + Uploads.UsedBytes(rest) == Uploads.UsedBytes(documents)
        decreases |rest|
      {
        var d :| d in rest;
        Uploads.UsedBytesSplit(rest, d);
        if rest[d].key.Some? {
          used := used + rest[d].byteSize;
        }
        rest := rest - {d};
      }
    }

    method CreateUpload(
      cfg: Settings, now: int, d: DocumentId, workspace: WorkspaceId, byteSize: nat, opaqueId: nat)
      returns (answer: Result<Key, Refusal>)
      requires d !in documents && 0 < byteSize
      modifies this`documents
      ensures answer.Ok? <==> old(Uploads.CanCreateUpload(State(), cfg, d, byteSize))
      ensures State() == if answer.Ok? then Uploads.CreateUpload(old(State()), cfg, now, d, workspace, byteSize, opaqueId)
                         else old(State())
      ensures answer.Ok? ==> answer.value == Incoming(opaqueId)
      ensures answer.Err? ==> answer.error == if byteSize > cfg.uploadMaxBytes then TooLarge else InsufficientStorage
    {
      if byteSize > cfg.uploadMaxBytes {
        return Err(TooLarge);
      }
      var used := UsedStorageBytes();
      if used + byteSize > cfg.quotaBytes {
        return Err(InsufficientStorage);
      }
      var key := Incoming(opaqueId);
      documents := documents[d := Document(workspace, byteSize, None, Some(key), UploadPending,
                                           Some(now + cfg.uploadTtlSeconds), None, now)];
      return Ok(key);
    }

    ghost function Site(bucket: Bucket, unwinding: multiset<Key>): Uploads.Site
      reads this, bucket
    {
      Uploads.Site(State(), Uploads.Store(bucket.objects, multiset(outbox), unwinding))
    }

    /**
     The committing part of `complete_upload`, after verification. When the commit fails, the tables stay as they
     were and the object already written is deleted again unless the bucket refuses.
     */
    method CompleteUpload(
      bucket: Bucket, now: int, d: DocumentId, body: seq<Byte>, r: RunId, config: RunConfig,
      commits: bool, bucketAnswers: bool, ghost unwinding: multiset<Key>)
      returns (answer: Result<DocumentId, Refusal>)
      requires r !in runs
      modifies this, bucket
      ensures !old(Uploads.PendingUpload(State(), d)) ==> Site(bucket, unwinding) == old(Site(bucket, unwinding))
      ensures answer.Ok? && old(Uploads.PendingUpload(State(), d)) && answer.value == d ==>
                && !old(Uploads.HasDuplicate(State(), d, Sha256(body)))
                && Site(bucket, unwinding) == Uploads.CompleteFresh(old(Site(bucket, unwinding)), now, d, body, r, config)
      ensures answer.Ok? && old(Uploads.PendingUpload(State(), d)) && answer.value != d ==>
                && old(Uploads.IsDuplicateOf(State(), d, answer.value, Sha256(body)))
                && Site(bucket, unwinding) == Uploads.CompleteDuplicate(old(Site(bucket, unwinding)), d, answer.value, body)
      ensures answer.Err? && old(Uploads.PendingUpload(State(), d)) ==>
                && State() == old(State()) && outbox == old(outbox)
                && var pair := Uploads.Pair(old(documents)[d].key.value);
                   || bucket.objects == old(bucket.objects)
                   || bucket.objects == (if bucketAnswers then old(bucket.objects) - {pair}
                                         else old(bucket.objects)[pair := body])
      ensures answer.Err? && old(Uploads.PendingUpload(State(), d)) && !old(Uploads.HasDuplicate(State(), d, Sha256(body))) ==>
                var pair := Uploads.Pair(old(documents)[d].key.value);
                bucket.objects == if bucketAnswers then old(bucket.objects) - {pair} else old(bucket.objects)[pair := body]
      ensures old(Uploads.PendingUpload(State(), d)) ==> (answer.Ok? <==> commits)
      ensures d in old(documents) && !old(Uploads.PendingUpload(State(), d)) ==> answer == Ok(d)
      ensures d !in old(documents) ==> answer == Err(NotFound)
    {
      if d !in documents {
        return Err(NotFound);
      }
      if documents[d].status != UploadPending || documents[d].key.None? || !documents[d].key.value.Incoming? {
        return Ok(d);
      }
      var incoming := documents[d].key.value;
      var permanent := Originals(incoming.opaqueId);
      var existing := set e | e in documents && e != d && documents[e].workspace == documents[d].workspace
                              && documents[e].sha256 == Some(Sha256(body));
      if existing != {} {
        var e :| e in existing;
        var ok := AbsorbDuplicate(bucket, d, e, body, commits, bucketAnswers);
        return if ok then Ok(e) else Err(Conflict);
      }
      assert forall e :: e in documents && Uploads.IsDuplicateOf(State(), d, e, Sha256(body)) ==> e in existing;
      var ok := WriteFinal(bucket, permanent, body, commits, bucketAnswers);
      if !ok {
        return Err(Conflict);
      }
      var document := documents[d];
      document := document.(key := Some(permanent), sha256 := Some(Sha256(body)));
      document := document.(status := DocumentStatus.Uploaded, uploadExpiresAt := None);
      documents := documents[d := document];
      runs := runs[r := Run(d, config, Queued, 0, None, None, None, None, false, now, now)];
      outbox := outbox + [incoming];
      return Ok(d);
    }

    /** Writes the final object; if the transaction then fails to commit, deletes it again. */
    method WriteFinal(bucket: Bucket, permanent: Key, body: seq<Byte>, commits: bool, bucketAnswers: bool)
      returns (ok: bool)
      modifies bucket
      ensures ok == commits
      ensures bucket.objects == if commits || !bucketAnswers then old(bucket.objects)[permanent := body]
                                else old(bucket.objects) - {permanent}
    {
      bucket.Put(permanent, body);
      if !commits && bucketAnswers {
        bucket.Delete(permanent);
        assert bucket.objects == old(bucket.objects) - {permanent};
      }
      return commits;
    }

    /** The upload's row gives way to `e`, which regains its original if it had lost it. */
    method AbsorbDuplicate(
        bucket: Bucket, d: DocumentId, e: DocumentId, body: seq<Byte>, commits: bool, bucketAnswers: bool)
      returns (ok: bool)
      requires Uploads.PendingUpload(State(), d) && e in documents && e != d
      modifies this, bucket
      ensures ok == commits
      ensures ok ==>
                var site := Uploads.CompleteDuplicate(
                  Uploads.Site(old(State()), Uploads.Store(old(bucket.objects), multiset(old(outbox)), multiset{})), d, e, body);
                site.db == State() && site.store.objects == bucket.objects && site.store.outbox == multiset(outbox)
      ensures !ok ==>
                && State() == old(State()) && outbox == old(outbox)
                && var pair := Uploads.Pair(old(documents)[d].key.value);
                   || bucket.objects == old(bucket.objects)
                   || bucket.objects == (if bucketAnswers then old(bucket.objects) - {pair}
                                         else old(bucket.objects)[pair := body])
    {
      var incoming := documents[d].key.value;
      var restored := documents[e];
      if restored.key.None? {
        ok := WriteFinal(bucket, Originals(incoming.opaqueId), body, commits, bucketAnswers);
        restored := restored.(key := Some(Originals(incoming.opaqueId)), originalDeletedAt := None);
      }
      if !commits {
        return false;
      }
      Delete(d);
      documents := documents[e := restored];
      outbox := outbox + [incoming];
      return true;
    }

    /** Row deletion with its cascades. */
    method Delete(d: DocumentId)
      modifies this`documents, this`runs, this`results
      ensures State() == DeleteDocument(old(State()), d)
    {
      documents := documents - {d};
      var kept := map r | r in runs && runs[r].document != d :: runs[r];
      results := results * kept.Keys;
      runs := kept;
    }

    method CancelUpload(bucket: Bucket, d: DocumentId, ghost unwinding: multiset<Key>)
      returns (answer: Result<(), Refusal>)
      modifies this
      ensures old(Uploads.CanCancelUpload(State(), d)) ==>
                answer.Ok? && Site(bucket, unwinding) == Uploads.CancelUpload(old(Site(bucket, unwinding)), d)
      ensures !old(Uploads.CanCancelUpload(State(), d)) ==> Site(bucket, unwinding) == old(Site(bucket, unwinding))
      ensures answer.Err? <==> d in old(documents) && !old(Uploads.CanCancelUpload(State(), d))
    {
      if d !in documents {
        return Ok(());
      }
      var pending := documents[d].status == UploadPending;
      var unclaimed := && documents[d].status == DocumentStatus.Uploaded
                       && (exists r :: r in runs && runs[r].document == d)
                       && (forall r :: r in runs && runs[r].document == d ==> runs[r].status == Queued);
      if !pending && !unclaimed {
        return Err(Conflict);
      }
      if documents[d].key.Some? {
        var key := documents[d].key.value;
        outbox := outbox + [key];
        if pending {
          outbox := outbox + [Originals(key.opaqueId)];
        }
      }
      Delete(d);
      return Ok(());
    }

    method DeleteOriginal(bucket: Bucket, now: int, d: DocumentId, ghost unwinding: multiset<Key>)
      returns (answer: Result<(), Refusal>)
      modifies this
      ensures Site(bucket, unwinding) ==
                if old(Uploads.CanDeleteOriginal(State(), d)) then Uploads.DeleteOriginal(old(Site(bucket, unwinding)), now, d)
                else old(Site(bucket, unwinding))
      ensures answer.Err? <==>
                && d in old(documents)
                && (|| old(HasLiveRun(State(), d))
                    || (old(documents)[d].key.Some? && !OriginalAvailable(old(documents)[d])))
    {
      if d !in documents {
        return Ok(());
      }
      if exists r :: r in runs && runs[r].document == d && Live(runs[r].status) {
        return Err(Conflict);
      }
      if documents[d].key.None? {
        return Ok(());
      }
      if documents[d].sha256.None? || documents[d].originalDeletedAt.Some? {
        return Err(Conflict);
      }
      outbox := outbox + [documents[d].key.value];
      documents := documents[d := documents[d].(key := None, originalDeletedAt := Some(now))];
      return Ok(());
    }

    method PermanentlyDeleteDocument(bucket: Bucket, d: DocumentId, ghost unwinding: multiset<Key>)
      returns (answer: Result<(), Refusal>)
      modifies this
      ensures Site(bucket, unwinding) ==
                if old(Uploads.CanDeletePermanently(State(), d)) then Uploads.DeletePermanently(old(Site(bucket, unwinding)), d)
                else old(Site(bucket, unwinding))
      ensures answer.Err? <==> d in old(documents) && !old(Uploads.CanDeletePermanently(State(), d))
    {
      if d !in documents {
        return Ok(());
      }
      if exists r :: r in runs && runs[r].document == d && Live(runs[r].status) {
        return Err(Conflict);
      }
      if documents[d].key.Some? {
        outbox := outbox + [documents[d].key.value];
      }
      Delete(d);
      return Ok(());
    }

    /** The rejection of an upload that failed verification, unless its row has moved on meanwhile. */
    method DiscardInvalidUpload(bucket: Bucket, d: DocumentId, incoming: Key, ghost unwinding: multiset<Key>)
      requires incoming.Incoming?
      modifies this
      ensures var rejects := old(Uploads.PendingUpload(State(), d)) && old(documents)[d].key == Some(incoming);
              Site(bucket, unwinding) == if rejects then Uploads.DiscardInvalidUpload(old(Site(bucket, unwinding)), d)
                                         else old(Site(bucket, unwinding))
    {
      if d !in documents || documents[d].status != UploadPending || documents[d].key != Some(incoming) {
        return;
      }
      outbox := outbox + [incoming];
      Delete(d);
    }

    /** The expired upload with the earliest deadline, ties broken by id, that no other transaction holds. */
    method EarliestExpired(now: int, locked: set<DocumentId>) returns (first: Option<DocumentId>)
      ensures first.None? ==> forall d :: d in documents && d !in locked ==> !Uploads.UploadExpired(State(), now, d)
      ensures first.Some? ==>
                && first.value !in locked && Uploads.UploadExpired(State(), now, first.value)
                && forall d :: d in documents && d !in locked && Uploads.UploadExpired(State(), now, d) ==>
                     var deadline, other := documents[first.value].uploadExpiresAt.value, documents[d].uploadExpiresAt.value;
                     deadline < other || (deadline == other && first.value <= d)
    {
      var candidates := set d | d in documents && d !in locked && ExpiredUpload(documents, now, d);
      if candidates == {} {
        assert forall d :: d in documents && d !in locked && ExpiredUpload(documents, now, d) ==> d in candidates;
        return None;
      }
      FirstExists<DocumentId>(candidates, ByDeadline(documents));
      var d :| IsFirst<DocumentId>(candidates, ByDeadline(documents), d);
      forall e | e in documents && e !in locked && ExpiredUpload(documents, now, e) ensures ExpiresBefore(documents, d, e) {
        assert e in candidates && ByDeadline(documents)(d, e);
      }
      return Some(d);
    }

    /** Removes the expired upload with the earliest deadline, ties broken by id, that no other transaction holds. */
    method CleanupOneExpiredUpload(bucket: Bucket, now: int, locked: set<DocumentId>, ghost unwinding: multiset<Key>)
      returns (removed: Option<DocumentId>)
      modifies this
      ensures removed.None? ==>
                && Site(bucket, unwinding) == old(Site(bucket, unwinding))
                && forall d :: d in old(documents) && d !in locked ==> !old(Uploads.UploadExpired(State(), now, d))
      ensures removed.Some? ==>
                && removed.value !in locked && old(Uploads.UploadExpired(State(), now, removed.value))
                && Site(bucket, unwinding) == Uploads.CancelUpload(old(Site(bucket, unwinding)), removed.value)
                && forall d :: d in old(documents) && d !in locked && old(Uploads.UploadExpired(State(), now, d)) ==>
                     var deadline, other :=
                       old(documents)[removed.value].uploadExpiresAt.value, old(documents)[d].uploadExpiresAt.value;
                     deadline < other || (deadline == other && removed.value <= d)
    {
      removed := EarliestExpired(now, locked);
      if removed.Some? {
        ReclaimUpload(bucket, removed.value, unwinding);
      }
    }

    /** Removes a pending upload and enqueues both its keys. */
    method ReclaimUpload(bucket: Bucket, d: DocumentId, ghost unwinding: multiset<Key>)
      requires d in documents && documents[d].status == UploadPending
      modifies this
      ensures Site(bucket, unwinding) == Uploads.CancelUpload(old(Site(bucket, unwinding)), d)
    {
      if documents[d].key.Some? {
        var key := documents[d].key.value;
        outbox := outbox + [key, Originals(key.opaqueId)];
      }
      Delete(d);
    }

    /** The pending deletion with the given index, or the oldest, that no other transaction holds. */
    method PickDeletion(named: Option<nat>, locked: set<nat>) returns (row: Option<nat>)
      ensures row.None? ==> forall i :: 0 <= i < |outbox| && (named.Some? ==> i == named.value) ==> i in locked
      ensures row.Some? ==>
                && row.value < |outbox| && row.value !in locked
                && (if named.Some? then row == named else forall i :: 0 <= i < row.value ==> i in locked)
    {
      if named.Some? {
        return if named.value >= |outbox| || named.value in locked then None else named;
      }
      for i := 0 to |outbox|
        invariant forall j :: 0 <= j < i ==> j in locked
      {
        if i !in locked {
          return Some(i);
        }
      }
      return None;
    }

    /**
     One outbox row: the named one, or the oldest, unless another transaction holds it. The object is deleted first,
     and the row only when that succeeded. A named row that is gone is an index past the end.
     */
    method ProcessOneObjectDeletion(
      bucket: Bucket, named: Option<nat>, locked: set<nat>, bucketAnswers: bool, ghost unwinding: multiset<Key>)
      returns (row: Option<nat>, done: bool)
      modifies this`outbox, bucket
      ensures row.None? ==>
                && !done && Site(bucket, unwinding) == old(Site(bucket, unwinding)) && outbox == old(outbox)
                && forall i :: 0 <= i < |old(outbox)| && (named.Some? ==> i == named.value) ==> i in locked
      ensures row.Some? ==>
                && row.value < |old(outbox)| && row.value !in locked && done == bucketAnswers
                && (if named.Some? then row == named else forall i :: 0 <= i < row.value ==> i in locked)
                && Site(bucket, unwinding) == old(Site(bucket, unwinding)).(
                     store := Uploads.ProcessObjectDeletion(old(Site(bucket, unwinding)).store, old(outbox)[row.value], done))
                && outbox == if done then Without(old(outbox), row.value) else old(outbox)
    {
      row := PickDeletion(named, locked);
      if row.None? || !bucketAnswers {
        return row, false;
      }
      bucket.Delete(outbox[row.value]);
      outbox := Without(outbox, row.value);
      return row, true;
    }
  }

  function Without(keys: seq<Key>, i: nat): (rest: seq<Key>)
    requires i < |keys|
    ensures multiset(rest) == multiset(keys) - multiset{keys[i]}
  {
    assert keys == keys[..i] + [keys[i]] + keys[i + 1..];
    keys[..i] + keys[i + 1..]
  }
}
