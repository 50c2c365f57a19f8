/** What users may ask for next: after each way a run can end, and what a granted request leads to. */
module RequestTheorems {
  import opened Wrappers
  import opened Entities
  import opened ModelProvider
  import opened Processor
  import opened Requests
  import opened Protocol
  import opened RunInvariants
  import opened RunTheorems
  import opened CallTheorems

  // ---------- after a run has ended ----------

  /** `r` is the latest run of a document whose original is still there. */
  ghost predicate LatestOf(db: Tables, d: DocumentId, r: RunId) {
    d in db.documents && OriginalAvailable(db.documents[d]) && IsLatestRun(db, d, r)
  }

  /** There is only one latest run. */
  lemma LatestIsUnique(db: Tables, d: DocumentId, q: RunId, r: RunId)
    requires IsLatestRun(db, d, q) && IsLatestRun(db, d, r)
    ensures q == r
  {
  }

  ghost predicate MayRetry(db: Tables, d: DocumentId) {
    exists q :: CanRetry(db, d, q)
  }

  ghost predicate MayConfirm(db: Tables, d: DocumentId) {
    exists q :: CanConfirm(db, d, q)
  }

  lemma OnlyTheLatest(db: Tables, d: DocumentId, r: RunId)
    requires LatestOf(db, d, r)
    ensures MayRetry(db, d) <==> CanRetry(db, d, r)
    ensures MayConfirm(db, d) <==> CanConfirm(db, d, r)
  {
    if q :| CanRetry(db, d, q) {
      LatestIsUnique(db, d, q, r);
    }
    if q :| CanConfirm(db, d, q) {
      LatestIsUnique(db, d, q, r);
    }
  }

  /** Ending a run leaves it the latest one of its document, and the original in place. */
  lemma StaysLatest(before: Tables, after: Tables, d: DocumentId, r: RunId)
    requires LatestOf(before, d, r) && r in after.runs && after.runs == before.runs[r := after.runs[r]]
    requires after.runs[r].document == d && after.runs[r].queuedAt == before.runs[r].queuedAt
    requires d in after.documents && after.documents[d] == before.documents[d].(status := after.documents[d].status)
    ensures LatestOf(after, d, r)
  {
    forall q | q in after.runs && after.runs[q].document == d
      ensures after.runs[q].queuedAt < after.runs[r].queuedAt || (after.runs[q].queuedAt == after.runs[r].queuedAt && q <= r)
    {
      assert q in before.runs && before.runs[q].document == d && before.runs[q].queuedAt == after.runs[q].queuedAt;
    }
  }

  /** A failed run can be retried, and anything can be forced; there is nothing to confirm. */
  lemma AfterFailure(db: Tables, c: ClaimedRun, w: WorkerId, config: RunConfig)
    requires FailRun(db, c, w).ok && LatestOf(db, db.runs[c.run].document, c.run)
    ensures var after, d := FailRun(db, c, w).db, db.runs[c.run].document;
            CanRetry(after, d, c.run) && !MayConfirm(after, d) && CanCreateRun(after, d, config, true)
  {
    var after, d := FailRun(db, c, w).db, db.runs[c.run].document;
    StaysLatest(db, after, d, c.run);
    OnlyTheLatest(after, d, c.run);
  }

  /**
   A run blocked as uncertain can be confirmed, and only confirmed; one blocked as unsupported allows nothing, not
   even by force.
   */
  lemma AfterBlock(db: Tables, c: ClaimedRun, w: WorkerId, decision: Classification, config: RunConfig, force: bool)
    requires BlockRunForScope(db, c, w, decision).ok
    ensures var after, d := BlockRunForScope(db, c, w, decision).db, db.runs[c.run].document;
            && !CanCreateRun(after, d, config, force)
            && (!decision.scope.Uncertain? ==> !MayConfirm(after, d))
            && (LatestOf(db, d, c.run) ==>
                  !MayRetry(after, d) && (decision.scope.Uncertain? ==> CanConfirm(after, d, c.run)))
  {
    var after, d := BlockRunForScope(db, c, w, decision).db, db.runs[c.run].document;
    if LatestOf(db, d, c.run) {
      StaysLatest(db, after, d, c.run);
      OnlyTheLatest(after, d, c.run);
    }
  }

  /** A success can be repeated by force only, or with another configuration; it is neither retried nor confirmed. */
  lemma AfterSuccess(db: Tables, c: ClaimedRun, w: WorkerId, k: Classification)
    requires CompleteRun(db, c, w, k).ok && LatestOf(db, db.runs[c.run].document, c.run)
    ensures var after, d := CompleteRun(db, c, w, k).db, db.runs[c.run].document;
            && !MayRetry(after, d) && !MayConfirm(after, d)
            && !CanCreateRun(after, d, db.runs[c.run].config, false)
            && (forall config :: CanCreateRun(after, d, config, true))
            && (forall config :: CanCreateRun(after, d, config, false) <==> !ConfiguredRunExists(after, d, config))
  {
    var after, d := CompleteRun(db, c, w, k).db, db.runs[c.run].document;
    StaysLatest(db, after, d, c.run);
    OnlyTheLatest(after, d, c.run);
    assert after.runs[c.run].document == d && after.runs[c.run].config == db.runs[c.run].config;
    assert ConfiguredRunExists(after, d, db.runs[c.run].config);
  }

  /** A cancelled run is neither retried nor confirmed, but a new one can be forced. */
  lemma AfterCancellation(db: Tables, c: ClaimedRun, w: WorkerId, config: RunConfig)
    requires AcknowledgeCancellation(db, c, w).ok && LatestOf(db, db.runs[c.run].document, c.run)
    ensures var after, d := AcknowledgeCancellation(db, c, w).db, db.runs[c.run].document;
            !MayRetry(after, d) && !MayConfirm(after, d) && CanCreateRun(after, d, config, true)
  {
    var after, d := AcknowledgeCancellation(db, c, w).db, db.runs[c.run].document;
    StaysLatest(db, after, d, c.run);
    OnlyTheLatest(after, d, c.run);
  }

  // ---------- while a run is live ----------

  /** A live run protects its document and original; without one they can be deleted. */
  lemma LiveRunsProtect(s: World, d: DocumentId)
    requires RunInv(s) && d in s.db.documents
    ensures var busy := exists r :: r in s.db.runs && s.db.runs[r].document == d
                                    && (s.db.runs[r].status.Queued? || Active(s.db.runs[r].status));
            && (CanStore(s, RemoveDocument(d)) <==> !busy)
            && (CanStore(s, RemoveOriginal(d)) <==> !busy && OriginalAvailable(s.db.documents[d]))
  {
    if HasLiveRun(s.db, d) {
      var r :| r in s.db.runs && s.db.runs[r].document == d && Live(s.db.runs[r].status);
      assert s.db.runs[r].status.Queued? || Active(s.db.runs[r].status);
    }
  }

  /** Asking for a cancellation cancels a queued run at once, and marks an active one for its worker. */
  lemma CancellationIsHeard(s: World, r: RunId)
    requires RunInv(s) && Enabled(s, Cancel(r))
    ensures var t := Apply(s, Cancel(r));
            && Marked(t.db, r)
            && (s.db.runs[r].status.Queued? ==>
                  t.db.runs[r].status.Cancelled? && forall now: int :: !Claimable(t.db, now, r))
            && (Active(s.db.runs[r].status) ==>
                  t.db.runs[r] == s.db.runs[r].(cancellationRequestedAt := t.db.runs[r].cancellationRequestedAt)
                  && t.db.documents == s.db.documents)
  {
    assert RunOk(s.db, s.cfg, s.now, r);
  }

  /** Exactly the live runs can be cancelled. */
  lemma LiveRunsCanBeCancelled(s: World, r: RunId)
    requires RunInv(s) && r in s.db.runs
    ensures Enabled(s, Cancel(r)) <==> s.db.runs[r].status.Queued? || Active(s.db.runs[r].status)
  {
    assert RunOk(s.db, s.cfg, s.now, r);
  }

  // ---------- what a granted request leads to ----------

  /** The configuration and the override with which a request queues its run. */
  function Requested(db: Tables, request: Request): (RunConfig, Option<Classification>)
    requires CanAsk(db, request)
  {
    match request
    case Create(_, config, _) => (config, None)
    case Retry(_, latest, config) => (config, OverrideOf(db.runs[latest]))
    case Confirm(_, latest, config) =>
      (RunConfig(db.runs[latest].config.provider, db.runs[latest].config.modelId, config.promptVersion,
                 config.schemaVersion, config.preprocessingVersion),
       db.runs[latest].classification)
  }

  /**
   A granted request queues a fresh run of its document that anybody can claim at once. A retry goes on with the
   override of the failed run, a confirmation takes the blocked run's uncertain classification as an override and keeps
   its provider and model, and a plain request goes through the gate again.
   */
  lemma GrantedRunsAreClaimable(s: World, r: RunId, request: Request)
    requires RunInv(s) && Enabled(s, Ask(r, request))
    ensures var t := Apply(s, Ask(r, request));
            var (config, override) := Requested(s.db, request);
            && r in t.db.runs && t.db.runs[r].document == request.d && t.db.runs[r].config == config
            && OverrideOf(t.db.runs[r]) == override && t.db.runs[r].attemptCount == 0
            && !Marked(t.db, r) && r !in t.db.results
            && (forall now: int :: Claimable(t.db, now, r) <==> s.now <= now)
            && (forall q :: q in s.db.runs ==> q in t.db.runs && t.db.runs[q] == s.db.runs[q])
  {
    RunInvStep(s, Ask(r, request));
    var t := Apply(s, Ask(r, request));
    assert RunOk(t.db, t.cfg, t.now, r);
    if request.Confirm? {
      assert RunOk(s.db, s.cfg, s.now, request.latest);
    }
  }

  /** A plain request for a configuration is answered from its live or successful run, if there is one. */
  lemma RequestsAreCoalesced(s: World, d: DocumentId, config: RunConfig)
    requires RunInv(s) && d in s.db.documents
    ensures CanAsk(s.db, Create(d, config, true)) <==>
              && OriginalAvailable(s.db.documents[d])
              && !s.db.documents[d].status.Unsupported? && !s.db.documents[d].status.NeedsConfirmation?
    ensures CanAsk(s.db, Create(d, config, false)) <==>
              && CanAsk(s.db, Create(d, config, true))
              && forall q :: q in s.db.runs && s.db.runs[q].document == d && s.db.runs[q].config == config ==>
                   !s.db.runs[q].status.Succeeded? && !s.db.runs[q].status.Queued? && !Active(s.db.runs[q].status)
  {
    if ConfiguredRunExists(s.db, d, config) {
      var q :| q in s.db.runs && s.db.runs[q].document == d && s.db.runs[q].config == config
               && (s.db.runs[q].status == Succeeded || Live(s.db.runs[q].status));
    }
  }
}
