/** What a document's status says: every change of a run's status writes the status that fits it. */
module StatusTheorems {
  import opened Entities
  import opened Processor
  import opened Requests
  import opened Protocol
  import opened RunInvariants

  // ---------- one step ----------

  /** Some other run of the same document has succeeded. */
  predicate SucceededBefore(db: Tables, r: RunId)
    requires r in db.runs
  {
    exists q :: q in db.runs && q != r && db.runs[q].document == db.runs[r].document && db.runs[q].status.Succeeded?
  }

  /** The document status that a run's own status calls for. */
  function FittingStatus(db: Tables, r: RunId): DocumentStatus
    requires r in db.runs
  {
    match db.runs[r].status
    case Queued => DocumentStatus.Uploaded
    case Preprocessing => DocumentStatus.Processing
    case Extracting => DocumentStatus.Processing
    case Validating => DocumentStatus.Processing
    case Succeeded => DocumentStatus.Ready
    case Failed => DocumentStatus.Failed
    case Cancelled => if SucceededBefore(db, r) then DocumentStatus.Ready else DocumentStatus.Failed
    case NeedsConfirmation => DocumentStatus.NeedsConfirmation
    case Unsupported => DocumentStatus.Unsupported
  }

  predicate Fits(db: Tables, r: RunId) {
    && r in db.runs && db.runs[r].document in db.documents
    && db.documents[db.runs[r].document].status == FittingStatus(db, r)
  }

  /** The step gives the run another status, or a new attempt; moving on between the stages of one attempt is neither. */
  predicate Turns(before: Tables, after: Tables, r: RunId) {
    && r in after.runs
    && (r in before.runs ==>
          || before.runs[r].attemptCount != after.runs[r].attemptCount
          || (before.runs[r].status != after.runs[r].status && !Active(after.runs[r].status)))
  }

  /** Only run `r` and its document's status may change, and where the run turns, the status written fits. */
  predicate TurnsFittingly(before: Tables, after: Tables, r: RunId) {
    && (forall q :: q in after.runs && q != r ==> q in before.runs && after.runs[q] == before.runs[q])
    && before.runs.Keys <= after.runs.Keys
    && before.documents.Keys == after.documents.Keys
    && (forall d :: d in after.documents && after.documents[d].status != before.documents[d].status ==>
          Fits(after, r) && after.runs[r].document == d)
    && (Turns(before, after, r) ==> Fits(after, r))
    && (r in before.runs && r in after.runs && Active(before.runs[r].status) && !Turns(before, after, r) ==>
          Active(after.runs[r].status))
    && (r in before.runs && r in after.runs && !Active(before.runs[r].status) && !Turns(before, after, r) ==>
          after.runs[r].status == before.runs[r].status)
    && (r in before.runs && r in after.runs ==> after.runs[r].document == before.runs[r].document)
  }

  lemma LeaseTurns(s: World, c: ClaimedRun, w: WorkerId)
    ensures TurnsFittingly(s.db, MaintainLease(s.db, s.cfg, s.now, c, w).db, c.run)
    ensures TurnsFittingly(s.db, SetProgressStage(s.db, s.cfg, s.now, c, w).db, c.run)
  {
  }

  lemma AdvanceTurns(s: World, c: ClaimedRun, w: WorkerId, expected: RunStatus, next: RunStatus)
    requires Active(expected) && Active(next)
    ensures TurnsFittingly(s.db, AdvanceStage(s.db, s.cfg, s.now, c, w, expected, next).db, c.run)
  {
  }

  lemma CompleteTurns(s: World, c: ClaimedRun, w: WorkerId, k: Classification)
    ensures TurnsFittingly(s.db, CompleteRun(s.db, c, w, k).db, c.run)
  {
  }

  lemma OtherSuccessesStay(before: Tables, after: Tables, r: RunId)
    requires r in before.runs && r in after.runs && after.runs == before.runs[r := after.runs[r]]
    requires after.runs[r].document == before.runs[r].document
    ensures PriorSuccess(before, r) <==> SucceededBefore(after, r)
  {
    if PriorSuccess(before, r) {
      var q :| q in before.runs && q != r && before.runs[q].document == before.runs[r].document
               && before.runs[q].status == Succeeded;
      assert after.runs[q] == before.runs[q];
    }
    if SucceededBefore(after, r) {
      var q :| q in after.runs && q != r && after.runs[q].document == after.runs[r].document
               && after.runs[q].status.Succeeded?;
      assert before.runs[q] == after.runs[q];
    }
  }

  lemma AcknowledgeTurns(s: World, c: ClaimedRun, w: WorkerId)
    ensures TurnsFittingly(s.db, AcknowledgeCancellation(s.db, c, w).db, c.run)
  {
    var after := AcknowledgeCancellation(s.db, c, w).db;
    if c.run in s.db.runs && after != s.db {
      OtherSuccessesStay(s.db, after, c.run);
    }
  }

  lemma FailTurns(s: World, c: ClaimedRun, w: WorkerId)
    ensures TurnsFittingly(s.db, FailRun(s.db, c, w).db, c.run)
  {
  }

  lemma BlockTurns(s: World, c: ClaimedRun, w: WorkerId, decision: Classification)
    ensures TurnsFittingly(s.db, BlockRunForScope(s.db, c, w, decision).db, c.run)
  {
  }

  lemma RequeueTurns(s: World, c: ClaimedRun, w: WorkerId)
    ensures TurnsFittingly(s.db, RequeueRateLimitedRun(s.db, s.cfg, s.now, c, w).db, c.run)
  {
  }

  lemma ActionTurns(s: World, c: ClaimedRun, w: WorkerId, a: Action)
    ensures TurnsFittingly(s.db, ActionTx(s, c, w, a).db, c.run)
  {
    match a
    case Fail => FailTurns(s, c, w);
    case Block(decision) => BlockTurns(s, c, w, decision);
    case Requeue => RequeueTurns(s, c, w);
  }

  lemma MoveTurns(s: World, w: WorkerId, move: Move)
    requires w in s.workers && CanMove(s.workers[w].phase, move)
    ensures TurnsFittingly(s.db, MoveResult(s, s.workers[w], w, move).0, s.workers[w].claim.run)
  {
    var Worker(c, phase) := s.workers[w];
    match move
    case Heartbeat => LeaseTurns(s, c, w);
    case ReportStage => LeaseTurns(s, c, w);
    case BeginExtraction => AdvanceTurns(s, c, w, Preprocessing, Extracting);
    case BeginValidation => AdvanceTurns(s, c, w, Extracting, Validating);
    case Complete => CompleteTurns(s, c, w, phase.classification);
    case Acknowledge => AcknowledgeTurns(s, c, w);
    case Act => ActionTurns(s, c, w, phase.action);
    case _ =>
  }

  lemma ClaimTurns(s: World, w: WorkerId, r: RunId)
    requires Claimable(s.db, s.now, r)
    ensures TurnsFittingly(s.db, ClaimNextRun(s.db, s.cfg, s.now, w, r).0, r)
  {
  }

  lemma AskTurns(s: World, r: RunId, request: Request)
    requires r !in s.db.runs && CanAsk(s.db, request)
    ensures TurnsFittingly(s.db, Asked(s, r, request).db, r)
  {
  }

  lemma CancelTurns(s: World, r: RunId)
    requires CanCancel(s.db, r)
    ensures TurnsFittingly(s.db, CancelRun(s.db, s.now, r), r)
  {
    var after := CancelRun(s.db, s.now, r);
    OtherSuccessesStay(s.db, after, r);
  }

  /** The run a step is about. */
  function Turned(s: World, step: Step): RunId {
    match step
    case Claim(_, r) => r
    case Work(w, _) => if w in s.workers then s.workers[w].claim.run else 0
    case Ask(r, _) => r
    case Cancel(r) => r
    case Storage(event) => if event.Finish? then event.r else 0
    case Tick(_) => 0
  }

  lemma StepTurns(s: World, step: Step)
    requires RunInv(s) && Enabled(s, step) && !step.Storage?
    ensures TurnsFittingly(s.db, Apply(s, step).db, Turned(s, step))
  {
    match step
    case Claim(w, r) => ClaimTurns(s, w, r);
    case Work(w, move) => MoveTurns(s, w, move);
    case Ask(r, request) => AskTurns(s, r, request);
    case Cancel(r) => CancelTurns(s, r);
    case Tick(_) =>
  }

  /** Whoever makes a run turn, worker, user or upload, leaves its document with the status that fits. */
  lemma DocumentFollowsItsRun(s: World, step: Step, r: RunId)
    requires RunInv(s) && Enabled(s, step) && Turns(s.db, Apply(s, step).db, r)
    ensures Fits(Apply(s, step).db, r)
  {
    if step.Storage? {
      StorageTurns(s, step.event, r);
    } else {
      StepTurns(s, step);
    }
  }

  lemma StorageTurns(s: World, event: StorageEvent, r: RunId)
    requires RunInv(s) && CanStore(s, event) && Turns(s.db, Stored(s, event).db, r)
    ensures Fits(Stored(s, event).db, r)
  {
  }

  // ---------- every reachable state ----------

  /** Some run of the document accounts for its status. */
  predicate Backed(db: Tables, d: DocumentId)
    requires d in db.documents
  {
    db.documents[d].status != UploadPending ==> exists r :: r in db.runs && Backs(db.runs[r], d, db.documents[d].status)
  }

  predicate Backs(run: Run, d: DocumentId, status: DocumentStatus) {
    && run.document == d
    && match status
       case UploadPending => false
       case Uploaded => run.status.Queued?
       case Processing => Active(run.status)
       case Ready => run.status.Succeeded?
       case Failed => run.status.Failed? || run.status.Cancelled?
       case NeedsConfirmation => run.status.NeedsConfirmation?
       case Unsupported => run.status.Unsupported?
  }

  predicate AllBacked(db: Tables) {
    forall d :: d in db.documents ==> Backed(db, d)
  }

  lemma FittingIsBacked(db: Tables, r: RunId)
    requires Fits(db, r)
    ensures Backed(db, db.runs[r].document)
  {
    var d := db.runs[r].document;
    if db.runs[r].status.Cancelled? && SucceededBefore(db, r) {
      var q :| q in db.runs && q != r && db.runs[q].document == db.runs[r].document && db.runs[q].status.Succeeded?;
      assert Backs(db.runs[q], d, db.documents[d].status);
    } else {
      assert Backs(db.runs[r], d, db.documents[d].status);
    }
  }

  lemma TurningKeepsBacked(before: Tables, after: Tables, r: RunId, d: DocumentId)
    requires TurnsFittingly(before, after, r) && d in before.documents && Backed(before, d)
    requires r in after.runs ==> after.runs[r].document in after.documents
    ensures Backed(after, d)
  {
    if after.documents[d].status != before.documents[d].status {
      FittingIsBacked(after, r);
    } else if after.documents[d].status != UploadPending {
      var q :| q in before.runs && Backs(before.runs[q], d, before.documents[d].status);
      if q == r && Turns(before, after, r) {
        FittingIsBacked(after, r);
      } else {
        assert Backs(after.runs[q], d, after.documents[d].status);
      }
    }
  }

  lemma StorageKeepsBacked(s: World, event: StorageEvent, d: DocumentId)
    requires RunInv(s) && AllBacked(s.db) && CanStore(s, event) && d in Stored(s, event).db.documents
    ensures Backed(Stored(s, event).db, d)
  {
    var after := Stored(s, event).db;
    if event.Finish? && d == event.d {
      assert Backs(after.runs[event.r], d, after.documents[d].status);
    } else if after.documents[d].status != UploadPending {
      StorageKeepsStatus(s, event, d);
      var q :| q in s.db.runs && Backs(s.db.runs[q], d, s.db.documents[d].status);
      StorageKeepsRuns(s, event, d, q);
      assert Backs(after.runs[q], d, after.documents[d].status);
    }
  }

  lemma StorageKeepsStatus(s: World, event: StorageEvent, d: DocumentId)
    requires RunInv(s) && CanStore(s, event) && d in Stored(s, event).db.documents && !(event.Finish? && d == event.d)
    ensures var status := Stored(s, event).db.documents[d].status;
            if d in s.db.documents then status == s.db.documents[d].status else status == UploadPending
  {
  }

  lemma StorageKeepsRuns(s: World, event: StorageEvent, d: DocumentId, q: RunId)
    requires RunInv(s) && CanStore(s, event) && d in Stored(s, event).db.documents && d in s.db.documents
    requires q in s.db.runs && s.db.runs[q].document == d
    ensures q in Stored(s, event).db.runs && Stored(s, event).db.runs[q] == s.db.runs[q]
  {
    StorageLeavesOwners(s, event);
    if Deletes(event) {
      assert d != event.d by {
        DeletionRemoves(s, event);
      }
      DeletionKeepsOthers(s, event, q);
    }
  }

  lemma DeletionRemoves(s: World, event: StorageEvent)
    requires CanStore(s, event) && Deletes(event)
    ensures event.d !in Stored(s, event).db.documents
  {
  }

  lemma DeletionKeepsOthers(s: World, event: StorageEvent, q: RunId)
    requires CanStore(s, event) && Deletes(event) && q in s.db.runs && s.db.runs[q].document != event.d
    ensures q in Stored(s, event).db.runs
  {
  }

  lemma BackedStep(s: World, step: Step)
    requires RunInv(s) && AllBacked(s.db) && Enabled(s, step)
    ensures AllBacked(Apply(s, step).db)
  {
    var t := Apply(s, step);
    RunInvStep(s, step);
    forall d | d in t.db.documents ensures Backed(t.db, d) {
      if step.Storage? {
        StorageKeepsBacked(s, step.event, d);
      } else {
        StepTurns(s, step);
        var r := Turned(s, step);
        if r in t.db.runs {
          assert RunOk(t.db, t.cfg, t.now, r);
        }
        TurningKeepsBacked(s.db, t.db, r, d);
      }
    }
  }

  /**
   In every reachable state a document's status is accounted for by a run of it: uploaded by a queued one, processing
   by an active one, ready by a success, failed by a failed or cancelled one, and the two scope verdicts by a run that
   ended with them.
   */
  lemma {:induction false} StatusIsAlwaysBacked(s: World, history: seq<Step>)
    requires RunInv(s) && AllBacked(s.db) && Possible(s, history)
    ensures AllBacked(After(s, history).db)
    decreases |history|
  {
    if history != [] {
      BackedStep(s, history[0]);
      RunInvStep(s, history[0]);
      StatusIsAlwaysBacked(Apply(s, history[0]), history[1..]);
    }
  }
}
