/** The run protocol's guarantees over every history of workers, users, clocks and crashes. */
module RunTheorems {
  import opened Wrappers
  import opened Entities
  import opened ModelProvider
  import opened Processor
  import opened Requests
  import opened Protocol
  import opened RunInvariants

  lemma Start(s: World, history: seq<Step>)
    requires Initial(s) && Possible(s, history)
    ensures RunInv(After(s, history))
  {
    RunInvAlways(s, history);
  }

  // ---------- fencing ----------

  predicate Holds(s: World, w: WorkerId, c: ClaimedRun) {
    w in s.workers && s.workers[w].claim == c
  }

  /** No two claims of a run are of the same attempt. */
  predicate AttemptsDiffer(s: World) {
    forall v, w :: v in s.workers && w in s.workers && v != w && s.workers[v].claim.run == s.workers[w].claim.run ==>
      s.workers[v].claim.attemptCount != s.workers[w].claim.attemptCount
  }

  lemma AttemptsDifferStep(s: World, step: Step)
    requires RunInv(s) && Enabled(s, step) && AttemptsDiffer(s)
    ensures AttemptsDiffer(Apply(s, step))
  {
    var t := Apply(s, step);
    if step.Claim? {
      forall v | v in s.workers && s.workers[v].claim.run == step.r
        ensures s.workers[v].claim.attemptCount < t.workers[step.w].claim.attemptCount
      {
        assert ClaimOk(s.db, s.issuedRuns, v, s.workers[v].claim);
      }
    } else {
      assert forall w :: w in t.workers ==> w in s.workers && t.workers[w].claim == s.workers[w].claim;
    }
  }

  lemma {:induction false} AttemptsAlwaysDiffer(s: World, history: seq<Step>)
    requires RunInv(s) && AttemptsDiffer(s) && Possible(s, history)
    ensures AttemptsDiffer(After(s, history))
    decreases |history|
  {
    if history != [] {
      AttemptsDifferStep(s, history[0]);
      RunInvStep(s, history[0]);
      AttemptsAlwaysDiffer(Apply(s, history[0]), history[1..]);
    }
  }

  /**
   In every reachable state no two claims of a run share an attempt number, and only the claim of the row's current
   attempt can pass a guard.
   */
  lemma OneLiveClaim(s: World, history: seq<Step>, v: WorkerId, w: WorkerId)
    requires Initial(s) && Possible(s, history)
    requires v in After(s, history).workers && w in After(s, history).workers
    ensures var t := After(s, history);
            var c, d := t.workers[v].claim, t.workers[w].claim;
            && (v != w && c.run == d.run ==> c.attemptCount != d.attemptCount)
            && (OwnedBy(t.db, c, v) ==> c.attemptCount == t.db.runs[c.run].attemptCount)
            && (OwnedBy(t.db, c, v) && OwnedBy(t.db, d, w) && c.run == d.run ==> v == w)
            && (c.run in t.db.runs && c.attemptCount < t.db.runs[c.run].attemptCount ==> !OwnedBy(t.db, c, v))
  {
    Start(s, history);
    AttemptsAlwaysDiffer(s, history);
    var t := After(s, history);
    assert ClaimOk(t.db, t.issuedRuns, v, t.workers[v].claim);
  }

  /** A worker that has lost its row cannot touch the tables, and cannot get the row back under this claim. */
  lemma FencedStep(s: World, step: Step, w: WorkerId, c: ClaimedRun)
    requires RunInv(s) && Enabled(s, step) && Holds(s, w, c) && !OwnedBy(s.db, c, w)
    ensures step.Work? && step.w == w ==> Apply(s, step).db == s.db
    ensures Holds(Apply(s, step), w, c) ==> !OwnedBy(Apply(s, step).db, c, w)
  {
    assert ClaimOk(s.db, s.issuedRuns, w, c);
    if step.Work? && step.w == w {
      MoveRewrites(s, w, step.move);
    }
    StepKeepsOwnership(s, step, if step.Claim? && step.w == w then w + 1 else w);
  }

  /** As long as `w` still acts under claim `c`, nothing it does changes a run, a document or a result. */
  ghost predicate Inert(s: World, history: seq<Step>, w: WorkerId, c: ClaimedRun)
    requires Possible(s, history)
    decreases |history|
  {
    history == [] || !Holds(s, w, c) ||
    (&& (history[0].Work? && history[0].w == w ==> Apply(s, history[0]).db == s.db)
     && Inert(Apply(s, history[0]), history[1..], w, c))
  }

  lemma {:induction false} FencedForever(s: World, history: seq<Step>, w: WorkerId, c: ClaimedRun)
    requires RunInv(s) && Possible(s, history) && Holds(s, w, c) && !OwnedBy(s.db, c, w)
    ensures Inert(s, history, w, c)
    decreases |history|
  {
    if history != [] {
      FencedStep(s, history[0], w, c);
      RunInvStep(s, history[0]);
      if Holds(Apply(s, history[0]), w, c) {
        FencedForever(Apply(s, history[0]), history[1..], w, c);
      }
    }
  }

  /** Reclaiming a run fences whoever held it: the old claim is inert along every continuation. */
  lemma ReclaimFences(s: World, v: WorkerId, w: WorkerId, c: ClaimedRun, history: seq<Step>)
    requires RunInv(s) && Holds(s, w, c)
    requires Enabled(s, Claim(v, c.run)) && Possible(Apply(s, Claim(v, c.run)), history)
    ensures Inert(Apply(s, Claim(v, c.run)), history, w, c)
  {
    RunInvStep(s, Claim(v, c.run));
    FencedForever(Apply(s, Claim(v, c.run)), history, w, c);
  }

  // ---------- terminal states and cancellation ----------

  /** Only its own worker, a new claim, or a cancellation request changes the row of an existing run. */
  lemma RowUntouched(s: World, step: Step, r: RunId)
    requires RunInv(s) && Enabled(s, step) && r in s.db.runs
    requires step.Work? ==> s.db.runs[r].workerId != Some(step.w) || s.workers[step.w].claim.run != r
    requires step.Claim? || step.Cancel? ==> step.r != r
    ensures r in Apply(s, step).db.runs ==> Apply(s, step).db.runs[r] == s.db.runs[r]
    ensures !step.Storage? ==> r in Apply(s, step).db.runs
  {
    match step
    case Work(w, move) => MoveRewrites(s, w, move);
    case Storage(event) => StorageLeavesOwners(s, event);
    case Ask(q, request) => AskLeavesOwners(s, q, request);
    case Claim(w, q) => ClaimAndCancelTouchOnly(s, q, w, r);
    case Cancel(q) => ClaimAndCancelTouchOnly(s, q, 0, r);
    case Tick(_) =>
  }

  lemma ClaimAndCancelTouchOnly(s: World, q: RunId, w: WorkerId, r: RunId)
    requires r in s.db.runs && q != r
    ensures Claimable(s.db, s.now, q) ==>
              var after := ClaimNextRun(s.db, s.cfg, s.now, w, q).0; r in after.runs && after.runs[r] == s.db.runs[r]
    ensures CanCancel(s.db, q) ==>
              var after := CancelRun(s.db, s.now, q); r in after.runs && after.runs[r] == s.db.runs[r]
  {
  }

  /** A worker other than the one that makes a claim in this step. */
  function Bystander(step: Step): (w: WorkerId)
    ensures step.Claim? ==> w != step.w
  {
    if step.Claim? then step.w + 1 else 0
  }

  /** Once a run has left the queue and the workers, its row never changes again while it exists. */
  lemma TerminalStep(s: World, step: Step, r: RunId)
    requires RunInv(s) && Enabled(s, step) && r in s.issuedRuns
    requires r in s.db.runs ==> !Live(s.db.runs[r].status)
    ensures r in Apply(s, step).issuedRuns
    ensures r in Apply(s, step).db.runs ==> r in s.db.runs && Apply(s, step).db.runs[r] == s.db.runs[r]
  {
    StepKeepsOwnership(s, step, Bystander(step));
    if r in s.db.runs {
      assert RunOk(s.db, s.cfg, s.now, r);
      RowUntouched(s, step, r);
    }
  }

  lemma {:induction false} TerminalIsFinal(s: World, history: seq<Step>, r: RunId)
    requires RunInv(s) && Possible(s, history) && r in s.issuedRuns
    requires r in s.db.runs ==> !Live(s.db.runs[r].status)
    ensures r in After(s, history).db.runs ==> r in s.db.runs && After(s, history).db.runs[r] == s.db.runs[r]
    decreases |history|
  {
    if history != [] {
      TerminalStep(s, history[0], r);
      RunInvStep(s, history[0]);
      TerminalIsFinal(Apply(s, history[0]), history[1..], r);
    }
  }

  predicate Marked(db: Tables, r: RunId) {
    r in db.runs && db.runs[r].cancellationRequestedAt.Some?
  }

  lemma MarkedStep(s: World, step: Step, r: RunId)
    requires RunInv(s) && Enabled(s, step) && Marked(s.db, r)
    ensures var t := Apply(s, step);
            r in t.db.runs ==> t.db.runs[r].cancellationRequestedAt == s.db.runs[r].cancellationRequestedAt
  {
    if step.Work? {
      MoveRewrites(s, step.w, step.move);
    } else if (step.Claim? || step.Cancel?) && step.r == r {
    } else {
      RowUntouched(s, step, r);
    }
  }

  /**
   A cancellation request wins against every interleaving: it is never cleared, the run only moves towards
   `cancelled`, and it never gets a result.
   */
  lemma {:induction false} CancellationWins(s: World, history: seq<Step>, r: RunId)
    requires RunInv(s) && Possible(s, history) && Marked(s.db, r)
    ensures var t := After(s, history);
            r in t.db.runs ==>
              && t.db.runs[r].cancellationRequestedAt == s.db.runs[r].cancellationRequestedAt
              && (t.db.runs[r].status == Cancelled || Active(t.db.runs[r].status))
              && r !in t.db.results
    decreases |history|
  {
    assert RunOk(s.db, s.cfg, s.now, r);
    if history != [] {
      var t := Apply(s, history[0]);
      MarkedStep(s, history[0], r);
      RunInvStep(s, history[0]);
      if r in t.db.runs {
        CancellationWins(t, history[1..], r);
      } else {
        StepKeepsOwnership(s, history[0], Bystander(history[0]));
        TerminalIsFinal(t, history[1..], r);
      }
    }
  }

  // ---------- a claim of a cancelled run ----------

  /** The worker holds a run marked for cancellation and can only end by acknowledging it. */
  predicate Doomed(s: World, w: WorkerId, c: ClaimedRun) {
    && Holds(s, w, c)
    && OwnedBy(s.db, c, w)
    && Marked(s.db, c.run)
    && s.db.runs[c.run].status == Preprocessing
    && (s.workers[w].phase.Preparing? || s.workers[w].phase.Acknowledging? || s.workers[w].phase.Settling?)
  }

  predicate CancelledOrGone(s: World, r: RunId) {
    r in s.issuedRuns && (r in s.db.runs ==> s.db.runs[r].status == Cancelled)
  }

  /** The step neither crashes `w` nor gives its run to another claim. */
  predicate Undisturbed(step: Step, w: WorkerId, r: RunId) {
    step != Work(w, Abandon) && !(step.Claim? && step.r == r)
  }

  lemma DoomedMove(s: World, move: Move, w: WorkerId, c: ClaimedRun)
    requires RunInv(s) && Doomed(s, w, c) && CanMove(s.workers[w].phase, move) && move != Abandon
    ensures Doomed(Worked(s, w, move), w, c) || CancelledOrGone(Worked(s, w, move), c.run)
  {
    assert RunOk(s.db, s.cfg, s.now, c.run);
    assert ClaimOk(s.db, s.issuedRuns, w, c);
  }

  lemma DoomedStep(s: World, step: Step, w: WorkerId, c: ClaimedRun)
    requires RunInv(s) && Enabled(s, step) && Doomed(s, w, c) && Undisturbed(step, w, c.run)
    ensures Doomed(Apply(s, step), w, c) || CancelledOrGone(Apply(s, step), c.run)
  {
    if step.Work? && step.w == w {
      DoomedMove(s, step.move, w, c);
    } else if step.Cancel? && step.r == c.run {
    } else {
      RowUntouched(s, step, c.run);
      if step.Storage? {
        DoomedSurvivesStorage(s, step.event, c.run);
      }
    }
  }

  /** No storage event removes a run that is queued or active with a claim. */
  lemma DoomedSurvivesStorage(s: World, event: StorageEvent, r: RunId)
    requires RunInv(s) && CanStore(s, event) && r in s.db.runs && Active(s.db.runs[r].status)
    ensures r in Stored(s, event).db.runs && Stored(s, event).db.runs[r] == s.db.runs[r]
  {
    assert RunOk(s.db, s.cfg, s.now, r);
    StorageLeavesOwners(s, event);
  }

  lemma {:induction false} DoomedEnds(s: World, history: seq<Step>, w: WorkerId, c: ClaimedRun)
    requires RunInv(s) && Possible(s, history) && Doomed(s, w, c)
    requires forall i :: 0 <= i < |history| ==> Undisturbed(history[i], w, c.run)
    ensures Doomed(After(s, history), w, c) || CancelledOrGone(After(s, history), c.run)
    decreases |history|
  {
    if history != [] {
      var t := Apply(s, history[0]);
      assert Undisturbed(history[0], w, c.run);
      DoomedStep(s, history[0], w, c);
      RunInvStep(s, history[0]);
      if Doomed(t, w, c) {
        DoomedEnds(t, history[1..], w, c);
      } else {
        TerminalIsFinal(t, history[1..], c.run);
        IssuedGrows(t, history[1..]);
      }
    }
  }

  lemma {:induction false} IssuedGrows(s: World, history: seq<Step>)
    requires Possible(s, history)
    ensures s.issuedRuns <= After(s, history).issuedRuns
    decreases |history|
  {
    if history != [] {
      IssuedGrows(Apply(s, history[0]), history[1..]);
    }
  }

  /** The run is marked, and has not passed the first stage since. */
  predicate HeldBack(db: Tables, r: RunId) {
    Marked(db, r) && (db.runs[r].status == Preprocessing || db.runs[r].status == Cancelled)
  }

  lemma HeldBackMove(s: World, w: WorkerId, move: Move, r: RunId)
    requires RunInv(s) && w in s.workers && CanMove(s.workers[w].phase, move) && HeldBack(s.db, r)
    ensures HeldBack(MoveResult(s, s.workers[w], w, move).0, r)
  {
    MoveRewrites(s, w, move);
    if s.workers[w].phase.Acting? {
      match s.workers[w].phase.action {
        case Fail =>
        case Block(_) =>
        case Requeue =>
      }
    }
  }

  lemma HeldBackStep(s: World, step: Step, r: RunId)
    requires RunInv(s) && Enabled(s, step) && HeldBack(s.db, r) && r in Apply(s, step).db.runs
    ensures HeldBack(Apply(s, step).db, r)
  {
    if step.Work? {
      HeldBackMove(s, step.w, step.move, r);
    } else if (step.Claim? || step.Cancel?) && step.r == r {
    } else {
      RowUntouched(s, step, r);
    }
  }

  /** Whatever crashes or reclaims follow, a run marked before it was extracted is never extracted. */
  lemma {:induction false} HeldBackForever(s: World, history: seq<Step>, r: RunId)
    requires RunInv(s) && Possible(s, history) && HeldBack(s.db, r)
    ensures r in After(s, history).db.runs ==> HeldBack(After(s, history).db, r)
    decreases |history|
  {
    if history != [] {
      var t := Apply(s, history[0]);
      RunInvStep(s, history[0]);
      if r in t.db.runs {
        HeldBackStep(s, history[0], r);
        HeldBackForever(t, history[1..], r);
      } else {
        StepKeepsOwnership(s, history[0], Bystander(history[0]));
        TerminalIsFinal(t, history[1..], r);
      }
    }
  }

  /**
   Cancellation survives crashes: once a run already marked for cancellation has been claimed, it never reaches
   `extracting` along any history; and unless the claiming worker crashes or is fenced in turn, its call can only end
   with the run cancelled.
   */
  lemma MarkedClaimEndsCancelled(s: World, w: WorkerId, r: RunId, history: seq<Step>)
    requires RunInv(s) && Marked(s.db, r) && Enabled(s, Claim(w, r)) && Possible(Apply(s, Claim(w, r)), history)
    ensures var c := Apply(s, Claim(w, r)).workers[w].claim;
            var t := After(Apply(s, Claim(w, r)), history);
            && (r in t.db.runs ==> HeldBack(t.db, r))
            && ((forall i :: 0 <= i < |history| ==> Undisturbed(history[i], w, r)) ==>
                  !Holds(t, w, c) && r in t.db.runs ==> t.db.runs[r].status == Cancelled)
  {
    var t := Apply(s, Claim(w, r));
    RunInvStep(s, Claim(w, r));
    HeldBackForever(t, history, r);
    if forall i :: 0 <= i < |history| ==> Undisturbed(history[i], w, r) {
      DoomedEnds(t, history, w, t.workers[w].claim);
    }
  }

  // ---------- the lost race ----------

  /** A marked row whose owner's call has already returned: nobody acts for it any more. */
  predicate Abandoned(s: World, r: RunId) {
    && Marked(s.db, r)
    && Active(s.db.runs[r].status)
    && forall w :: w in s.workers && s.workers[w].claim.run == r ==> s.db.runs[r].workerId != Some(w)
  }

  lemma AbandonedStep(s: World, step: Step, r: RunId)
    requires RunInv(s) && Enabled(s, step) && Abandoned(s, r) && !(step.Claim? && step.r == r)
    ensures Abandoned(Apply(s, step), r) && Apply(s, step).db.runs[r] == s.db.runs[r]
  {
    if step.Cancel? && step.r == r {
    } else {
      RowUntouched(s, step, r);
      if step.Storage? {
        DoomedSurvivesStorage(s, step.event, r);
      }
    }
  }

  lemma {:induction false} AbandonedWaits(s: World, history: seq<Step>, r: RunId)
    requires RunInv(s) && Possible(s, history) && Abandoned(s, r)
    requires forall i :: 0 <= i < |history| ==> !(history[i].Claim? && history[i].r == r)
    ensures r in After(s, history).db.runs && After(s, history).db.runs[r] == s.db.runs[r]
    ensures RunInv(After(s, history))
    decreases |history|
  {
    if history != [] {
      assert !(history[0].Claim? && history[0].r == r);
      AbandonedStep(s, history[0], r);
      RunInvStep(s, history[0]);
      AbandonedWaits(Apply(s, history[0]), history[1..], r);
    }
  }

  lemma LostAction(s: World, w: WorkerId, r: RunId)
    requires RunInv(s) && w in s.workers && s.workers[w].phase.Acting? && s.workers[w].claim.run == r
    requires Marked(s.db, r) && s.db.runs[r].workerId == Some(w)
    ensures Apply(s, Work(w, Act)).db == s.db && Abandoned(Apply(s, Work(w, Act)), r)
  {
    assert RunOk(s.db, s.cfg, s.now, r);
    match s.workers[w].phase.action {
      case Fail =>
      case Block(_) =>
      case Requeue =>
    }
  }

  /**
   The race between acknowledgement and action: the request arrives after the worker found nothing to
   acknowledge. Its block, failure or requeue is refused, and whatever happens next, the row stays as it is until
   it is claimed again, which is possible exactly once its lease has lapsed; `MarkedClaimEndsCancelled` says how
   that claim ends.
   */
  lemma LostRaceWaitsForItsLease(s: World, w: WorkerId, r: RunId, history: seq<Step>)
    requires RunInv(s) && w in s.workers && s.workers[w].phase.Acting? && s.workers[w].claim.run == r
    requires Marked(s.db, r) && s.db.runs[r].workerId == Some(w)
    requires Possible(Apply(s, Work(w, Act)), history)
    requires forall i :: 0 <= i < |history| ==> !(history[i].Claim? && history[i].r == r)
    ensures var t := After(Apply(s, Work(w, Act)), history);
            && r in t.db.runs && t.db.runs[r] == s.db.runs[r] && t.db.runs[r].leaseExpiresAt.Some?
            && (Claimable(t.db, t.now, r) <==> t.db.runs[r].leaseExpiresAt.value < t.now)
  {
    LostAction(s, w, r);
    RunInvStep(s, Work(w, Act));
    AbandonedWaits(Apply(s, Work(w, Act)), history, r);
    var t := After(Apply(s, Work(w, Act)), history);
    assert RunOk(t.db, t.cfg, t.now, r);
  }

  // ---------- no stranded work ----------

  /** Every live run stays reachable for a claim, and a pending upload has no run. */
  lemma NoStrandedWork(s: World, history: seq<Step>, r: RunId)
    requires Initial(s) && Possible(s, history) && r in After(s, history).db.runs
    ensures var t := After(s, history);
            var run := t.db.runs[r];
            && run.document in t.db.documents
            && t.db.documents[run.document].status != UploadPending
            && (Live(run.status) ==> OriginalAvailable(t.db.documents[run.document]))
            && (run.status == Queued && run.queuedAt <= t.now ==> Claimable(t.db, t.now, r))
            && (Active(run.status) ==> run.leaseExpiresAt.Some?)
            && (Active(run.status) && run.leaseExpiresAt.value < t.now ==> Claimable(t.db, t.now, r))
  {
    Start(s, history);
    assert RunOk(After(s, history).db, s.cfg, After(s, history).now, r) by { SettingsFixed(s, history); }
  }

  lemma {:induction false} SettingsFixed(s: World, history: seq<Step>)
    requires Possible(s, history)
    ensures After(s, history).cfg == s.cfg
    decreases |history|
  {
    if history != [] {
      SettingsFixed(Apply(s, history[0]), history[1..]);
    }
  }

  /** In every reachable state the columns agree with the status, and results are exactly the successes. */
  lemma StatusTellsAll(s: World, history: seq<Step>, r: RunId)
    requires Initial(s) && Possible(s, history) && r in After(s, history).db.runs
    ensures var t := After(s, history);
            var run := t.db.runs[r];
            && (r in t.db.results <==> run.status == Succeeded)
            && (run.workerId.Some? <==> Active(run.status))
            && (run.leaseExpiresAt.Some? <==> Active(run.status))
            && (run.cancellationRequestedAt.Some? ==> Active(run.status) || run.status == Cancelled)
            && (run.status == Queued ==> run.attemptCount < t.cfg.maxAttempts)
  {
    Start(s, history);
    assert RunOk(After(s, history).db, After(s, history).cfg, After(s, history).now, r);
  }

  // ---------- the scope gate over whole histories ----------

  /**
   Nothing is published without the gate or a human: a run with a result was approved by the gate, or a human
   confirmed an earlier uncertain run of the same document; unrelated content never yields a result.
   */
  lemma ScopeGate(s: World, history: seq<Step>, r: RunId)
    requires Initial(s) && Possible(s, history) && r in After(s, history).db.results
    ensures var db := After(s, history).db;
            && r in db.runs
            && db.runs[r].classification.Some?
            && db.runs[r].classification.value.scope != Unrelated
            && (if db.runs[r].classificationOverride
                then db.runs[r].classification.value.scope == Uncertain && ConfirmedEarlier(db, r)
                else Passes(db.runs[r].classification.value))
  {
    Start(s, history);
    assert RunOk(After(s, history).db, After(s, history).cfg, After(s, history).now, r);
  }
}
