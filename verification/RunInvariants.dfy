/** What every step keeps about runs, results and the claims workers hold. */
module RunInvariants {
  import opened Wrappers
  import opened Entities
  import opened ModelProvider
  import opened Processor
  import opened Requests
  import opened Protocol

  /** The columns of one run agree with its status. */
  predicate RowOk(cfg: Settings, now: int, run: Run) {
    && (run.workerId.Some? <==> Active(run.status))
    && (run.leaseExpiresAt.Some? <==> Active(run.status))
    && (run.cancellationRequestedAt.Some? ==> Active(run.status) || run.status == Cancelled)
    && (run.status == Cancelled ==> run.cancellationRequestedAt.Some?)
    && (run.status == Queued ==> run.attemptCount < cfg.maxAttempts)
    && (Active(run.status) ==> 0 < run.attemptCount)
    && run.createdAt <= now
    && ClassificationOk(run)
  }

  /** Without an override the scope records the gate's decision; with one it stays uncertain for good. */
  predicate ClassificationOk(run: Run) {
    if run.classificationOverride then
      && run.classification.Some? && run.classification.value.scope == Uncertain
      && run.status != RunStatus.NeedsConfirmation && run.status != RunStatus.Unsupported
    else match run.status
      case Succeeded => run.classification.Some? && Passes(run.classification.value)
      case NeedsConfirmation => run.classification.Some? && run.classification.value.scope == Uncertain
      case Unsupported => run.classification.Some? && run.classification.value.scope == Unrelated
      case _ => run.classification.None?
  }

  /** An earlier run of the same document stopped for confirmation with an uncertain scope. */
  predicate ConfirmedEarlier(db: Tables, r: RunId)
    requires r in db.runs
  {
    exists q :: q in db.runs && Vouches(db.runs[q], db.runs[r])
  }

  predicate Vouches(blocked: Run, run: Run) {
    && blocked.document == run.document
    && blocked.status == RunStatus.NeedsConfirmation
    && !blocked.classificationOverride
    && blocked.createdAt <= run.createdAt
  }

  predicate RunOk(db: Tables, cfg: Settings, now: int, r: RunId)
    requires r in db.runs
  {
    var run := db.runs[r];
    && RowOk(cfg, now, run)
    && run.document in db.documents
    && db.documents[run.document].status != UploadPending
    && (Live(run.status) ==> OriginalAvailable(db.documents[run.document]))
    && (r in db.results <==> run.status == Succeeded)
    && (run.classificationOverride ==> ConfirmedEarlier(db, r))
  }

  predicate RunsOk(db: Tables, cfg: Settings, now: int) {
    && db.results <= db.runs.Keys
    && forall r :: r in db.runs ==> RunOk(db, cfg, now, r)
  }

  // ---------- claims ----------

  predicate OwnedBy(db: Tables, c: ClaimedRun, w: WorkerId) {
    c.run in db.runs && db.runs[c.run].workerId == Some(w)
  }

  /** What a worker's phase says about its own claim. */
  predicate PhaseOk(cfg: Settings, worker: Worker) {
    var c := worker.claim;
    match worker.phase
    case Extracted(k) => ExtractionOk(c, k)
    case Saving(k) => ExtractionOk(c, k)
    case Settling(a) => ActionOk(cfg, c, a)
    case Acting(a) => ActionOk(cfg, c, a)
    case _ => true
  }

  predicate ExtractionOk(c: ClaimedRun, k: Classification) {
    match c.classificationOverride
    case None => Passes(k)
    case Some(o) => k == o
  }

  predicate ActionOk(cfg: Settings, c: ClaimedRun, a: Action) {
    match a
    case Fail => true
    case Block(d) => c.classificationOverride.None? && d.scope != Supported
    case Requeue => c.attemptCount < cfg.maxAttempts
  }

  /** The claim's attempt never runs ahead of the row's, and equals it while the worker owns the row. */
  predicate ClaimOk(db: Tables, issued: set<RunId>, w: WorkerId, c: ClaimedRun) {
    && c.run in issued
    && (c.run in db.runs ==>
          && c.attemptCount <= db.runs[c.run].attemptCount
          && c.document == db.runs[c.run].document)
    && (OwnedBy(db, c, w) ==>
          && c.attemptCount == db.runs[c.run].attemptCount
          && c.classificationOverride ==
               if db.runs[c.run].classificationOverride then db.runs[c.run].classification else None)
  }

  predicate ClaimsOk(s: World) {
    && s.db.runs.Keys <= s.issuedRuns
    && forall w :: w in s.workers ==>
         ClaimOk(s.db, s.issuedRuns, w, s.workers[w].claim) && PhaseOk(s.cfg, s.workers[w])
  }

  /** A document is a reservation, an available original, or an original its owner deleted. */
  predicate DocumentOk(document: Document) {
    if document.status == UploadPending then
      && document.sha256.None? && document.originalDeletedAt.None? && document.uploadExpiresAt.Some?
      && document.key.Some? && document.key.value.Incoming?
    else
      && document.sha256.Some? && |document.sha256.value.preimage| == document.byteSize
      && (document.key.Some? <==> document.originalDeletedAt.None?)
      && (document.key.Some? ==> document.key.value.Originals?)
  }

  predicate DocumentsOk(db: Tables) {
    forall d :: d in db.documents ==> DocumentOk(db.documents[d])
  }

  predicate RunInv(s: World) {
    s.cfg.maxAttempts >= 1 && RunsOk(s.db, s.cfg, s.now) && ClaimsOk(s) && DocumentsOk(s.db)
  }

  // ---------- how tables may change ----------

  /** Documents lose nothing a run relies on. */
  predicate DocumentsKept(before: Tables, after: Tables) {
    forall d :: d in before.documents ==>
      && d in after.documents
      && (before.documents[d].status != UploadPending ==> after.documents[d].status != UploadPending)
      && (OriginalAvailable(before.documents[d]) ==> OriginalAvailable(after.documents[d]))
  }

  /** One run is rewritten; everything else about runs stays. */
  lemma RewritePreserves(db: Tables, after: Tables, cfg: Settings, now: int, r: RunId)
    requires RunsOk(db, cfg, now) && DocumentsKept(db, after)
    requires r in db.runs && r in after.runs && after.runs == db.runs[r := after.runs[r]]
    requires RowOk(cfg, now, after.runs[r])
    requires Vouches(db.runs[r], db.runs[r]) ==> after.runs[r].status == RunStatus.NeedsConfirmation
    requires after.runs[r].(status := db.runs[r].status, attemptCount := db.runs[r].attemptCount,
               workerId := db.runs[r].workerId, leaseExpiresAt := db.runs[r].leaseExpiresAt,
               cancellationRequestedAt := db.runs[r].cancellationRequestedAt,
               classification := db.runs[r].classification, queuedAt := db.runs[r].queuedAt) == db.runs[r]
    requires Live(after.runs[r].status) ==> Live(db.runs[r].status)
    requires after.results == (if after.runs[r].status == Succeeded then db.results + {r} else db.results)
    requires after.runs[r].status != Succeeded ==> r !in db.results
    ensures RunsOk(after, cfg, now)
  {
    forall q | q in after.runs ensures RunOk(after, cfg, now, q) {
      assert RunOk(db, cfg, now, q);
      if after.runs[q].classificationOverride {
        var v :| v in db.runs && Vouches(db.runs[v], db.runs[q]);
        assert Vouches(after.runs[v], after.runs[q]);
      }
    }
  }

  /** A fresh queued run of an available document is added. */
  lemma InsertPreserves(db: Tables, after: Tables, cfg: Settings, now: int, r: RunId)
    requires cfg.maxAttempts >= 1 && RunsOk(db, cfg, now) && DocumentsKept(db, after)
    requires r !in db.runs && r in after.runs && after.runs == db.runs[r := after.runs[r]]
    requires after.results == db.results
    requires var run := after.runs[r];
             && run == QueuedRun(run.document, run.config, run.classificationOverride, run.classification, now)
             && run.document in after.documents
             && OriginalAvailable(after.documents[run.document])
             && after.documents[run.document].status != UploadPending
             && ClassificationOk(run)
             && (run.classificationOverride ==> exists v :: v in db.runs && Vouches(db.runs[v], run))
    ensures RunsOk(after, cfg, now)
  {
    forall q | q in after.runs ensures RunOk(after, cfg, now, q) {
      if q != r {
        assert RunOk(db, cfg, now, q);
      }
      if after.runs[q].classificationOverride {
        var v :| v in db.runs && Vouches(db.runs[v], after.runs[q]);
        assert after.runs[v] == db.runs[v];
      }
    }
  }

  /** Runs stay as they are while documents change underneath, or whole documents go with all their runs. */
  lemma DeletePreserves(db: Tables, after: Tables, cfg: Settings, now: int, d: DocumentId)
    requires RunsOk(db, cfg, now)
    requires after.runs == DeleteDocument(db, d).runs && after.results == DeleteDocument(db, d).results
    requires forall e :: e in db.documents && e != d ==>
               && e in after.documents
               && (db.documents[e].status != UploadPending ==> after.documents[e].status != UploadPending)
               && (OriginalAvailable(db.documents[e]) ==> OriginalAvailable(after.documents[e]))
    ensures RunsOk(after, cfg, now)
  {
    forall q | q in after.runs ensures RunOk(after, cfg, now, q) {
      assert RunOk(db, cfg, now, q);
      if after.runs[q].classificationOverride {
        var v :| v in db.runs && Vouches(db.runs[v], after.runs[q]);
        assert v in after.runs && Vouches(after.runs[v], after.runs[q]);
      }
    }
  }

  lemma DocumentsPreserve(db: Tables, after: Tables, cfg: Settings, now: int)
    requires RunsOk(db, cfg, now)
    requires after.runs == db.runs && after.results == db.results
    requires forall r :: r in db.runs ==>
               var d := db.runs[r].document;
               && d in after.documents
               && after.documents[d].status != UploadPending
               && (Live(db.runs[r].status) ==> OriginalAvailable(after.documents[d]))
    ensures RunsOk(after, cfg, now)
  {
    forall q | q in after.runs ensures RunOk(after, cfg, now, q) {
      assert RunOk(db, cfg, now, q);
      assert ConfirmedEarlier(db, q) <==> ConfirmedEarlier(after, q);
    }
  }

  lemma LaterIsFine(db: Tables, cfg: Settings, now: int, later: int)
    requires RunsOk(db, cfg, now) && now <= later
    ensures RunsOk(db, cfg, later)
  {
    forall r | r in db.runs ensures RunOk(db, cfg, later, r) {
      assert RunOk(db, cfg, now, r);
    }
  }

  // ---------- preservation, transaction by transaction ----------

  predicate SameOriginals(before: map<DocumentId, Document>, after: map<DocumentId, Document>) {
    && before.Keys == after.Keys
    && forall d :: d in before ==>
         && after[d] == before[d].(status := after[d].status)
         && (before[d].status == UploadPending <==> after[d].status == UploadPending)
  }

  /** Stages only move forward; any active run may be released to the queue or to a terminal status. */
  predicate StatusFlows(before: RunStatus, after: RunStatus) {
    || !Active(after)
    || after == before
    || (before == Preprocessing && after == Extracting)
    || (before == Extracting && after == Validating)
  }

  /** What a worker transaction may do to the row it owns. */
  predicate RowRewrite(before: Run, after: Run) {
    && after.document == before.document
    && after.config == before.config
    && after.classificationOverride == before.classificationOverride
    && after.createdAt == before.createdAt
    && after.attemptCount == before.attemptCount
    && after.cancellationRequestedAt == before.cancellationRequestedAt
    && Active(before.status)
    && StatusFlows(before.status, after.status)
    && (after.workerId.Some? ==> after.workerId == before.workerId && after.classification == before.classification)
  }

  /** A worker transaction either changes nothing or rewrites the one run its claim owns. */
  predicate Rewrites(before: Tables, after: Tables, c: ClaimedRun, w: WorkerId) {
    || after == before
    || (&& OwnedBy(before, c, w)
        && c.run in after.runs
        && after.runs == before.runs[c.run := after.runs[c.run]]
        && RowRewrite(before.runs[c.run], after.runs[c.run])
        && (after.runs[c.run].status == Succeeded ==> SuccessIndexAdmits(before, c.run))
        && SameOriginals(before.documents, after.documents)
        && after.results == (if after.runs[c.run].status == Succeeded then before.results + {c.run} else before.results))
  }

  /** `Rewrites`, and the new row is in order. */
  predicate GoodRewrite(s: World, after: Tables, c: ClaimedRun, w: WorkerId) {
    && Rewrites(s.db, after, c, w)
    && (after != s.db ==> RowOk(s.cfg, s.now, after.runs[c.run]))
  }

  /** The claimed row, if it still exists, is in order and its document is not a mere reservation. */
  predicate RowReady(s: World, c: ClaimedRun) {
    c.run in s.db.runs ==>
      && RowOk(s.cfg, s.now, s.db.runs[c.run])
      && s.db.runs[c.run].document in s.db.documents
      && s.db.documents[s.db.runs[c.run].document].status != UploadPending
  }

  lemma LeaseRewrites(s: World, c: ClaimedRun, w: WorkerId)
    requires RowReady(s, c)
    ensures GoodRewrite(s, MaintainLease(s.db, s.cfg, s.now, c, w).db, c, w)
    ensures GoodRewrite(s, SetProgressStage(s.db, s.cfg, s.now, c, w).db, c, w)
  {
  }

  lemma AdvanceRewrites(s: World, c: ClaimedRun, w: WorkerId, expected: RunStatus, next: RunStatus)
    requires RowReady(s, c) && Active(expected) && Active(next) && StatusFlows(expected, next)
    ensures GoodRewrite(s, AdvanceStage(s.db, s.cfg, s.now, c, w, expected, next).db, c, w)
  {
  }

  lemma CompleteRewrites(s: World, c: ClaimedRun, w: WorkerId, k: Classification)
    requires RowReady(s, c) && ClaimOk(s.db, s.issuedRuns, w, c) && ExtractionOk(c, k)
    ensures GoodRewrite(s, CompleteRun(s.db, c, w, k).db, c, w)
  {
  }

  lemma AcknowledgeRewrites(s: World, c: ClaimedRun, w: WorkerId)
    requires RowReady(s, c)
    ensures GoodRewrite(s, AcknowledgeCancellation(s.db, c, w).db, c, w)
  {
  }

  lemma FailRewrites(s: World, c: ClaimedRun, w: WorkerId)
    requires RowReady(s, c) && ClaimOk(s.db, s.issuedRuns, w, c)
    ensures GoodRewrite(s, FailRun(s.db, c, w).db, c, w)
  {
  }

  lemma BlockRewrites(s: World, c: ClaimedRun, w: WorkerId, decision: Classification)
    requires RowReady(s, c) && ClaimOk(s.db, s.issuedRuns, w, c)
    requires c.classificationOverride.None? && decision.scope != Supported
    ensures GoodRewrite(s, BlockRunForScope(s.db, c, w, decision).db, c, w)
  {
  }

  lemma RequeueRewrites(s: World, c: ClaimedRun, w: WorkerId)
    requires RowReady(s, c) && ClaimOk(s.db, s.issuedRuns, w, c) && c.attemptCount < s.cfg.maxAttempts
    ensures GoodRewrite(s, RequeueRateLimitedRun(s.db, s.cfg, s.now, c, w).db, c, w)
  {
  }

  lemma ActionRewrites(s: World, c: ClaimedRun, w: WorkerId, a: Action)
    requires RowReady(s, c) && ClaimOk(s.db, s.issuedRuns, w, c) && ActionOk(s.cfg, c, a)
    ensures GoodRewrite(s, ActionTx(s, c, w, a).db, c, w)
  {
    match a
    case Fail => FailRewrites(s, c, w);
    case Block(decision) => BlockRewrites(s, c, w, decision);
    case Requeue => RequeueRewrites(s, c, w);
  }

  lemma MoveRewrites(s: World, w: WorkerId, move: Move)
    requires RunInv(s) && w in s.workers && CanMove(s.workers[w].phase, move)
    ensures GoodRewrite(s, MoveResult(s, s.workers[w], w, move).0, s.workers[w].claim, w)
  {
    var Worker(c, phase) := s.workers[w];
    assert ClaimOk(s.db, s.issuedRuns, w, c) && PhaseOk(s.cfg, s.workers[w]);
    assert RowReady(s, c) by {
      if c.run in s.db.runs {
        assert RunOk(s.db, s.cfg, s.now, c.run);
      }
    }
    match move
    case Heartbeat => LeaseRewrites(s, c, w);
    case ReportStage => LeaseRewrites(s, c, w);
    case BeginExtraction => AdvanceRewrites(s, c, w, Preprocessing, Extracting);
    case BeginValidation => AdvanceRewrites(s, c, w, Extracting, Validating);
    case Complete => CompleteRewrites(s, c, w, phase.classification);
    case Acknowledge => AcknowledgeRewrites(s, c, w);
    case Act => ActionRewrites(s, c, w, phase.action);
    case _ =>
  }

  lemma WorkerTxPreservesRuns(s: World, after: Tables, c: ClaimedRun, w: WorkerId)
    requires RunInv(s) && GoodRewrite(s, after, c, w)
    ensures RunsOk(after, s.cfg, s.now)
  {
    if after != s.db {
      assert RunOk(s.db, s.cfg, s.now, c.run);
      RewritePreserves(s.db, after, s.cfg, s.now, c.run);
    }
  }

  lemma AskPreservesRuns(s: World, r: RunId, request: Request)
    requires RunInv(s) && r !in s.issuedRuns && CanAsk(s.db, request)
    ensures RunsOk(Asked(s, r, request).db, s.cfg, s.now)
  {
    var after := Asked(s, r, request).db;
    match request {
      case Create(d, config, force) =>
      case Retry(d, latest, config) =>
        assert RunOk(s.db, s.cfg, s.now, latest);
        if s.db.runs[latest].classificationOverride {
          var v :| v in s.db.runs && Vouches(s.db.runs[v], s.db.runs[latest]);
          assert Vouches(s.db.runs[v], after.runs[r]);
        }
      case Confirm(d, latest, config) =>
        assert RunOk(s.db, s.cfg, s.now, latest);
        assert Vouches(s.db.runs[latest], after.runs[r]);
    }
    InsertPreserves(s.db, after, s.cfg, s.now, r);
  }

  lemma CancelPreservesRuns(s: World, r: RunId)
    requires RunInv(s) && CanCancel(s.db, r)
    ensures RunsOk(CancelRun(s.db, s.now, r), s.cfg, s.now)
  {
    var after := CancelRun(s.db, s.now, r);
    assert RunOk(s.db, s.cfg, s.now, r);
    if after != s.db {
      RewritePreserves(s.db, after, s.cfg, s.now, r);
    }
  }

  lemma ClaimPreservesRuns(s: World, w: WorkerId, r: RunId)
    requires RunInv(s) && Claimable(s.db, s.now, r)
    ensures RunsOk(ClaimNextRun(s.db, s.cfg, s.now, w, r).0, s.cfg, s.now)
  {
    assert RunOk(s.db, s.cfg, s.now, r);
    RewritePreserves(s.db, ClaimNextRun(s.db, s.cfg, s.now, w, r).0, s.cfg, s.now, r);
  }

  predicate Deletes(event: StorageEvent) {
    event.FinishDuplicate? || event.Discard? || event.CancelPending? || event.Expire? || event.RemoveDocument?
  }

  lemma StorageDeletionPreservesRuns(s: World, event: StorageEvent)
    requires RunInv(s) && CanStore(s, event) && Deletes(event)
    ensures RunsOk(Stored(s, event).db, s.cfg, s.now)
  {
    assert forall r :: r in s.db.runs ==> RunOk(s.db, s.cfg, s.now, r);
    DeletePreserves(s.db, Stored(s, event).db, s.cfg, s.now, event.d);
  }

  lemma StoragePreservesRuns(s: World, event: StorageEvent)
    requires RunInv(s) && CanStore(s, event)
    ensures RunsOk(Stored(s, event).db, s.cfg, s.now)
  {
    if Deletes(event) {
      StorageDeletionPreservesRuns(s, event);
    } else if event.Finish? {
      InsertPreserves(s.db, Stored(s, event).db, s.cfg, s.now, event.r);
    } else if event.RemoveOriginal? || event.Reserve? {
      DocumentsPreserve(s.db, Stored(s, event).db, s.cfg, s.now);
    }
  }

  // ---------- claims ----------

  /** How one run may look after a step that is not a new claim of `w`: ownership is only ever lost. */
  predicate OwnershipKept(before: Tables, after: Tables, w: WorkerId) {
    forall r :: r in after.runs ==>
      if r in before.runs then
        && before.runs[r].attemptCount <= after.runs[r].attemptCount
        && before.runs[r].document == after.runs[r].document
        && (after.runs[r].workerId == Some(w) ==>
              && before.runs[r].workerId == Some(w)
              && before.runs[r].attemptCount == after.runs[r].attemptCount
              && before.runs[r].classificationOverride == after.runs[r].classificationOverride
              && before.runs[r].classification == after.runs[r].classification)
      else after.runs[r].workerId.None?
  }

  lemma ClaimKept(before: Tables, after: Tables, issued: set<RunId>, more: set<RunId>, w: WorkerId, c: ClaimedRun)
    requires ClaimOk(before, issued, w, c) && OwnershipKept(before, after, w) && issued <= more
    requires before.runs.Keys <= issued
    requires forall r :: r in after.runs && r !in before.runs ==> r !in issued
    ensures ClaimOk(after, more, w, c)
  {
  }

  lemma RewriteKeepsOwnership(before: Tables, after: Tables, c: ClaimedRun, v: WorkerId, w: WorkerId)
    requires Rewrites(before, after, c, v)
    ensures OwnershipKept(before, after, w) && after.runs.Keys == before.runs.Keys
  {
  }

  /** Rows are only removed, or added without an owner. */
  predicate OwnersUntouched(before: Tables, after: Tables) {
    forall r :: r in after.runs ==>
      if r in before.runs then after.runs[r] == before.runs[r] else after.runs[r].workerId.None?
  }

  lemma StorageLeavesOwners(s: World, event: StorageEvent)
    requires CanStore(s, event) && s.db.runs.Keys <= s.issuedRuns
    ensures OwnersUntouched(s.db, Stored(s, event).db)
    ensures Stored(s, event).db.runs.Keys <= s.db.runs.Keys + (if event.Finish? then {event.r} else {})
  {
  }

  lemma AskLeavesOwners(s: World, r: RunId, request: Request)
    requires CanAsk(s.db, request) && r !in s.db.runs
    ensures OwnersUntouched(s.db, Asked(s, r, request).db)
    ensures Asked(s, r, request).db.runs.Keys == s.db.runs.Keys + {r}
  {
  }

  lemma ClaimAndCancelKeepOwnership(s: World, r: RunId, v: WorkerId, w: WorkerId)
    ensures CanCancel(s.db, r) ==> OwnershipKept(s.db, CancelRun(s.db, s.now, r), w)
    ensures CanCancel(s.db, r) ==> CancelRun(s.db, s.now, r).runs.Keys == s.db.runs.Keys
    ensures v != w && Claimable(s.db, s.now, r) ==> OwnershipKept(s.db, ClaimNextRun(s.db, s.cfg, s.now, v, r).0, w)
    ensures Claimable(s.db, s.now, r) ==> ClaimNextRun(s.db, s.cfg, s.now, v, r).0.runs.Keys == s.db.runs.Keys
  {
  }

  lemma StepKeepsOwnership(s: World, step: Step, w: WorkerId)
    requires RunInv(s) && Enabled(s, step) && (step.Claim? ==> step.w != w)
    ensures OwnershipKept(s.db, Apply(s, step).db, w)
    ensures s.issuedRuns <= Apply(s, step).issuedRuns
    ensures forall r :: r in Apply(s, step).db.runs && r !in s.db.runs ==>
              r !in s.issuedRuns && r in Apply(s, step).issuedRuns
  {
    match step
    case Work(v, move) =>
      MoveRewrites(s, v, move);
      RewriteKeepsOwnership(s.db, Apply(s, step).db, s.workers[v].claim, v, w);
    case Storage(event) => StorageLeavesOwners(s, event);
    case Ask(r, request) => AskLeavesOwners(s, r, request);
    case Claim(v, r) => ClaimAndCancelKeepOwnership(s, r, v, w);
    case Cancel(r) => ClaimAndCancelKeepOwnership(s, r, w, w);
    case Tick(_) =>
  }

  lemma PhaseKept(s: World, w: WorkerId, move: Move)
    requires RunInv(s) && w in s.workers && CanMove(s.workers[w].phase, move)
    ensures MoveResult(s, s.workers[w], w, move).1.Some? ==>
              PhaseOk(s.cfg, s.workers[w].(phase := MoveResult(s, s.workers[w], w, move).1.value))
  {
    assert PhaseOk(s.cfg, s.workers[w]);
  }

  lemma ClaimsPreserved(s: World, step: Step)
    requires RunInv(s) && Enabled(s, step)
    ensures ClaimsOk(Apply(s, step))
  {
    var t := Apply(s, step);
    StepKeepsOwnership(s, step, if step.Claim? then step.w + 1 else 0);
    forall w | w in t.workers
      ensures ClaimOk(t.db, t.issuedRuns, w, t.workers[w].claim) && PhaseOk(t.cfg, t.workers[w])
    {
      if w in s.workers {
        assert PhaseOk(s.cfg, s.workers[w]);
        if step.Work? && step.w == w {
          PhaseKept(s, w, step.move);
        }
        StepKeepsOwnership(s, step, w);
        ClaimKept(s.db, t.db, s.issuedRuns, t.issuedRuns, w, s.workers[w].claim);
      }
    }
  }

  lemma StoragePreservesDocuments(s: World, event: StorageEvent)
    requires RunInv(s) && CanStore(s, event)
    ensures DocumentsOk(Stored(s, event).db)
  {
  }

  /** Writing back a run and its document's status keeps every original. */
  lemma WriteBackKeepsOriginals(db: Tables, r: RunId, run: Run, status: DocumentStatus)
    requires run.document in db.documents && db.documents[run.document].status != UploadPending
    requires status != UploadPending
    ensures SameOriginals(db.documents, WriteBack(db, r, run, status).documents)
  {
  }

  lemma AskKeepsOriginals(s: World, r: RunId, request: Request)
    requires DocumentsOk(s.db) && CanAsk(s.db, request)
    ensures SameOriginals(s.db.documents, Asked(s, r, request).db.documents)
  {
    assert DocumentOk(s.db.documents[request.d]);
    WriteBackKeepsOriginals(s.db, r, Asked(s, r, request).db.runs[r], DocumentStatus.Uploaded);
  }

  lemma CancelKeepsOriginals(s: World, r: RunId)
    requires RunInv(s) && CanCancel(s.db, r)
    ensures SameOriginals(s.db.documents, CancelRun(s.db, s.now, r).documents)
  {
    assert RunOk(s.db, s.cfg, s.now, r);
  }

  lemma ClaimKeepsOriginals(s: World, w: WorkerId, r: RunId)
    requires RunInv(s) && Claimable(s.db, s.now, r)
    ensures SameOriginals(s.db.documents, ClaimNextRun(s.db, s.cfg, s.now, w, r).0.documents)
  {
    assert RunOk(s.db, s.cfg, s.now, r);
  }

  lemma SameOriginalsKeepDocumentsOk(before: Tables, after: Tables)
    requires DocumentsOk(before) && SameOriginals(before.documents, after.documents)
    ensures DocumentsOk(after)
  {
  }

  /** Of all steps only the storage events touch anything but a document's status. */
  lemma OriginalsKept(s: World, step: Step)
    requires RunInv(s) && Enabled(s, step) && !step.Storage?
    ensures SameOriginals(s.db.documents, Apply(s, step).db.documents)
  {
    match step
    case Tick(_) =>
    case Claim(w, r) => ClaimKeepsOriginals(s, w, r);
    case Work(w, move) => MoveRewrites(s, w, move);
    case Ask(r, request) => AskKeepsOriginals(s, r, request);
    case Cancel(r) => CancelKeepsOriginals(s, r);
  }

  lemma RunsPreserved(s: World, step: Step)
    requires RunInv(s) && Enabled(s, step)
    ensures RunsOk(Apply(s, step).db, s.cfg, Apply(s, step).now)
  {
    match step
    case Tick(seconds) => LaterIsFine(s.db, s.cfg, s.now, s.now + seconds);
    case Work(w, move) =>
      MoveRewrites(s, w, move);
      WorkerTxPreservesRuns(s, Apply(s, step).db, s.workers[w].claim, w);
    case Storage(event) => StoragePreservesRuns(s, event);
    case Claim(w, r) => ClaimPreservesRuns(s, w, r);
    case Ask(r, request) => AskPreservesRuns(s, r, request);
    case Cancel(r) => CancelPreservesRuns(s, r);
  }

  /** The run invariant survives every step of every interleaving. */
  lemma RunInvStep(s: World, step: Step)
    requires RunInv(s) && Enabled(s, step)
    ensures RunInv(Apply(s, step))
  {
    ClaimsPreserved(s, step);
    RunsPreserved(s, step);
    if step.Storage? {
      StoragePreservesDocuments(s, step.event);
    } else {
      OriginalsKept(s, step);
      SameOriginalsKeepDocumentsOk(s.db, Apply(s, step).db);
    }
  }

  /** Hence it holds after every possible history of the empty pipeline. */
  lemma {:induction false} RunInvAlways(s: World, history: seq<Step>)
    requires RunInv(s) && Possible(s, history)
    ensures RunInv(After(s, history))
    decreases |history|
  {
    if history != [] {
      RunInvStep(s, history[0]);
      RunInvAlways(Apply(s, history[0]), history[1..]);
    }
  }
}
