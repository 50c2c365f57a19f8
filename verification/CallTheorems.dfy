/** What a worker's call comes to: who holds the row meanwhile, how each outcome ends it, and what may follow. */
module CallTheorems {
  import opened Wrappers
  import opened Entities
  import opened ModelProvider
  import opened Processor
  import opened Protocol
  import opened RunInvariants
  import opened RunTheorems
  import opened RunTermination

  // ---------- who may claim a row, and when ----------

  /** Until the instant the lease lapses nobody can claim the run, and from then on anybody can. */
  ghost predicate HeldUntil(db: Tables, r: RunId, lapse: int) {
    forall now: int :: Claimable(db, now, r) <==> lapse < now
  }

  /** A claim holds the row for exactly the lease, counts the attempt, and remembers an override. */
  lemma ClaimHoldsTheRow(s: World, w: WorkerId, r: RunId)
    requires RunInv(s) && Enabled(s, Claim(w, r))
    ensures var t := Apply(s, Claim(w, r));
            && w in t.workers && t.workers[w].claim.run == r && OwnedBy(t.db, t.workers[w].claim, w)
            && t.db.runs[r].attemptCount == s.db.runs[r].attemptCount + 1
            && t.workers[w].claim.attemptCount == t.db.runs[r].attemptCount
            && t.workers[w].claim.classificationOverride == OverrideOf(s.db.runs[r])
            && HeldUntil(t.db, r, s.now + s.cfg.leaseSeconds)
  {
    assert RunOk(s.db, s.cfg, s.now, r);
  }

  /** The moves that renew the lease of the row they find in order. */
  predicate Renews(s: World, w: WorkerId, r: RunId, move: Move) {
    && r in s.db.runs && Active(s.db.runs[r].status) && s.db.runs[r].workerId == Some(w)
    && (|| move.Heartbeat?
        || (s.db.runs[r].cancellationRequestedAt.None?
            && ((move.ReportStage? && s.db.runs[r].status == Extracting)
                || (move.BeginExtraction? && s.db.runs[r].status == Preprocessing)
                || (move.BeginValidation? && s.db.runs[r].status == Extracting))))
  }

  /** A renewing move holds the row for another full lease; any other move of that kind leaves the tables alone. */
  lemma RenewalsHoldTheRow(s: World, w: WorkerId, move: Move)
    requires RunInv(s) && w in s.workers && CanMove(s.workers[w].phase, move)
    requires move.Heartbeat? || move.ReportStage? || move.BeginExtraction? || move.BeginValidation?
    ensures var r := s.workers[w].claim.run;
            var after := MoveResult(s, s.workers[w], w, move).0;
            if Renews(s, w, r, move) then
              && HeldUntil(after, r, s.now + s.cfg.leaseSeconds)
              && after.runs[r].workerId == Some(w)
              && after.runs[r].cancellationRequestedAt == s.db.runs[r].cancellationRequestedAt
              && after.runs[r].status == (if move.BeginExtraction? then Extracting
                                          else if move.BeginValidation? then Validating
                                          else s.db.runs[r].status)
            else after == s.db
  {
    var r := s.workers[w].claim.run;
    if r in s.db.runs {
      assert RunOk(s.db, s.cfg, s.now, r);
    }
  }

  // ---------- attempts count claims ----------

  ghost function CountClaims(s: World, history: seq<Step>, r: RunId): nat
    requires Possible(s, history)
    decreases |history|
  {
    if history == [] then 0
    else (if history[0].Claim? && history[0].r == r then 1 else 0) + CountClaims(Apply(s, history[0]), history[1..], r)
  }

  function Attempts(s: World, r: RunId): nat {
    if r in s.db.runs then s.db.runs[r].attemptCount else 0
  }

  lemma AttemptStep(s: World, step: Step, r: RunId)
    requires RunInv(s) && Enabled(s, step) && r in Apply(s, step).db.runs
    ensures Attempts(Apply(s, step), r) == Attempts(s, r) + (if step.Claim? && step.r == r then 1 else 0)
  {
    if r !in s.db.runs {
      NewRowIsFresh(s, step, r);
    } else if step.Work? {
      MoveRewrites(s, step.w, step.move);
    } else if (step.Claim? || step.Cancel?) && step.r == r {
    } else {
      RowUntouched(s, step, r);
    }
  }

  lemma {:induction false} GoneForGood(s: World, history: seq<Step>, r: RunId)
    requires RunInv(s) && Possible(s, history) && r in s.issuedRuns && r !in s.db.runs
    ensures r !in After(s, history).db.runs
    decreases |history|
  {
    TerminalIsFinal(s, history, r);
  }

  /** Along every history a run's attempt number grows by exactly its claims. */
  lemma {:induction false} AttemptsCountClaims(s: World, history: seq<Step>, r: RunId)
    requires RunInv(s) && Possible(s, history) && r in After(s, history).db.runs
    ensures After(s, history).db.runs[r].attemptCount == Attempts(s, r) + CountClaims(s, history, r)
    decreases |history|
  {
    if history != [] {
      var t := Apply(s, history[0]);
      RunInvStep(s, history[0]);
      AttemptsCountClaims(t, history[1..], r);
      if r in t.db.runs {
        AttemptStep(s, history[0], r);
      } else if r in s.db.runs {
        StepKeepsOwnership(s, history[0], Bystander(history[0]));
        GoneForGood(t, history[1..], r);
      }
    }
  }

  // ---------- an action that is due ----------

  /** Nobody crashes `w`, claims its run, or asks for the run's cancellation. */
  predicate Unhindered(step: Step, w: WorkerId, r: RunId) {
    Undisturbed(step, w, r) && !(step.Cancel? && step.r == r)
  }

  /** The worker is to act on its unmarked run once it has asked for a cancellation in vain. */
  predicate Bound(s: World, w: WorkerId, c: ClaimedRun, a: Action) {
    && Holds(s, w, c) && OwnedBy(s.db, c, w) && !Marked(s.db, c.run)
    && Active(s.db.runs[c.run].status) && (a.Block? ==> s.db.runs[c.run].status == Extracting)
    && (s.workers[w].phase == Settling(a) || s.workers[w].phase == Acting(a))
  }

  /** What the action makes of the run; a requeued one is due between two instants. */
  predicate Acted(run: Run, a: Action, from: int, to: int) {
    && run.workerId.None? && run.leaseExpiresAt.None? && run.cancellationRequestedAt.None?
    && match a
       case Fail => run.status.Failed?
       case Block(decision) =>
         && run.classification == Some(decision)
         && (if decision.scope.Uncertain? then run.status.NeedsConfirmation? else run.status.Unsupported?)
       case Requeue => run.status.Queued? && from <= run.queuedAt <= to
  }

  ghost predicate ActedOrGone(s: World, r: RunId, a: Action, from: int) {
    r in s.issuedRuns && (r in s.db.runs ==> Acted(s.db.runs[r], a, from, s.now + s.cfg.retrySeconds))
  }

  lemma BoundMove(s: World, move: Move, w: WorkerId, c: ClaimedRun, a: Action, from: int)
    requires RunInv(s) && Bound(s, w, c, a) && CanMove(s.workers[w].phase, move) && move != Abandon
    requires from <= s.now + s.cfg.retrySeconds
    ensures Bound(Worked(s, w, move), w, c, a) || ActedOrGone(Worked(s, w, move), c.run, a, from)
  {
    assert RunOk(s.db, s.cfg, s.now, c.run);
    assert ClaimOk(s.db, s.issuedRuns, w, c);
  }

  lemma BoundStep(s: World, step: Step, w: WorkerId, c: ClaimedRun, a: Action, from: int)
    requires RunInv(s) && Enabled(s, step) && Bound(s, w, c, a) && Unhindered(step, w, c.run)
    requires from <= s.now + s.cfg.retrySeconds
    ensures Bound(Apply(s, step), w, c, a) || ActedOrGone(Apply(s, step), c.run, a, from)
  {
    if step.Work? && step.w == w {
      BoundMove(s, step.move, w, c, a, from);
    } else {
      RowUntouched(s, step, c.run);
      if step.Storage? {
        DoomedSurvivesStorage(s, step.event, c.run);
      }
    }
  }

  lemma ActedStep(s: World, step: Step, w: WorkerId, r: RunId, a: Action, from: int)
    requires RunInv(s) && Enabled(s, step) && ActedOrGone(s, r, a, from) && Unhindered(step, w, r)
    ensures ActedOrGone(Apply(s, step), r, a, from)
  {
    StepKeepsOwnership(s, step, Bystander(step));
    if r in s.db.runs {
      RowUntouched(s, step, r);
    }
  }

  lemma {:induction false} BoundEnds(s: World, history: seq<Step>, w: WorkerId, c: ClaimedRun, a: Action, from: int)
    requires RunInv(s) && Possible(s, history) && from <= s.now + s.cfg.retrySeconds
    requires Bound(s, w, c, a) || ActedOrGone(s, c.run, a, from)
    requires forall i :: 0 <= i < |history| ==> Unhindered(history[i], w, c.run)
    ensures Bound(After(s, history), w, c, a) || ActedOrGone(After(s, history), c.run, a, from)
    decreases |history|
  {
    if history != [] {
      var t := Apply(s, history[0]);
      assert Unhindered(history[0], w, c.run);
      if Bound(s, w, c, a) {
        BoundStep(s, history[0], w, c, a, from);
      } else {
        ActedStep(s, history[0], w, c.run, a, from);
      }
      RunInvStep(s, history[0]);
      BoundEnds(t, history[1..], w, c, a, from);
    }
  }

  /** At the moment of the action: a requeued run can be claimed by anybody from exactly its due time on. */
  lemma ActionTakesEffect(s: World, w: WorkerId, c: ClaimedRun, a: Action)
    requires RunInv(s) && Bound(s, w, c, a) && s.workers[w].phase == Acting(a)
    ensures var t := Apply(s, Work(w, Act));
            var due := s.now + s.cfg.retrySeconds;
            && w !in t.workers && c.run in t.db.runs && Acted(t.db.runs[c.run], a, due, due)
            && (a.Requeue? ==> forall later: int :: Claimable(t.db, later, c.run) <==> due <= later)
  {
    assert RunOk(s.db, s.cfg, s.now, c.run);
  }

  // ---------- from the provider's word to the end of the call ----------

  /** The worker is inside the provider call of an unmarked run it owns. */
  predicate InCall(s: World, w: WorkerId, c: ClaimedRun) {
    && Holds(s, w, c) && OwnedBy(s.db, c, w) && !Marked(s.db, c.run)
    && s.db.runs[c.run].status == Extracting && s.workers[w].phase.Calling?
  }

  /** What the two graphs' behaviour obliges the worker to do; nothing when it has an extraction or was cancelled. */
  function Duty(
    cfg: Settings, c: ClaimedRun, classifier: GraphEvent<Classification>, graph: GraphEvent<()>): Option<Action>
  {
    var override := c.classificationOverride;
    if (override.None? && classifier.Throttled?) || (GraphReached(override, classifier) && graph.Throttled?) then
      Some(if c.attemptCount < cfg.maxAttempts then Requeue else Fail)
    else if (override.None? && classifier.Broke?) || (GraphReached(override, classifier) && graph.Broke?) then Some(Fail)
    else if override.None? && classifier.Returned? && !Passes(classifier.value) then
      var confident := classifier.value.scope.Unrelated? && classifier.value.confidence >= 0.85;
      Some(Block(classifier.value.(scope := if confident then Unrelated else Uncertain)))
    else None
  }

  lemma ProviderObliges(
    s: World, w: WorkerId, c: ClaimedRun, classifier: GraphEvent<Classification>, graph: GraphEvent<()>)
    requires RunInv(s) && InCall(s, w, c)
    ensures var t := Apply(s, Work(w, CallProvider(classifier, graph)));
            var duty := Duty(s.cfg, c, classifier, graph);
            && t.db == s.db && t.now == s.now && t.cfg == s.cfg
            && (duty.Some? ==> Bound(t, w, c, duty.value))
            && (GraphReached(c.classificationOverride, classifier) && graph.Returned? ==>
                  Holds(t, w, c) && t.workers[w].phase ==
                    Extracted(if c.classificationOverride.Some? then c.classificationOverride.value else classifier.value))
  {
  }

  /**
   A call whose graphs throttle, break or block ends as they say: unless the worker crashes, is fenced, or the run is
   cancelled meanwhile, the run is requeued while attempts are left, failed, or blocked with the gate's decision. A
   requeued run is due the configured delay after the requeue.
   */
  lemma CallsEndAsTheProviderSays(
    s: World, w: WorkerId, c: ClaimedRun, classifier: GraphEvent<Classification>, graph: GraphEvent<()>,
    history: seq<Step>)
    requires RunInv(s) && InCall(s, w, c) && Duty(s.cfg, c, classifier, graph).Some?
    requires Possible(Apply(s, Work(w, CallProvider(classifier, graph))), history)
    requires forall i :: 0 <= i < |history| ==> Unhindered(history[i], w, c.run)
    ensures var t := After(Apply(s, Work(w, CallProvider(classifier, graph))), history);
            !Holds(t, w, c) && c.run in t.db.runs ==>
              Acted(t.db.runs[c.run], Duty(s.cfg, c, classifier, graph).value, s.now + s.cfg.retrySeconds,
                    t.now + t.cfg.retrySeconds)
  {
    var call := Work(w, CallProvider(classifier, graph));
    var duty := Duty(s.cfg, c, classifier, graph).value;
    ProviderObliges(s, w, c, classifier, graph);
    RunInvStep(s, call);
    BoundEnds(Apply(s, call), history, w, c, duty, s.now + s.cfg.retrySeconds);
  }

  /** The run is still extracting, unmarked and its worker's; the worker has nothing left to do but acknowledge. */
  predicate Waits(s: World, w: WorkerId, c: ClaimedRun) {
    && c.run in s.issuedRuns
    && (c.run in s.db.runs ==>
          OwnedBy(s.db, c, w) && !Marked(s.db, c.run) && s.db.runs[c.run].status == Extracting)
    && (w in s.workers && s.workers[w].claim.run == c.run ==> s.workers[w].phase.Acknowledging?)
  }

  lemma WaitsStep(s: World, step: Step, w: WorkerId, c: ClaimedRun)
    requires RunInv(s) && Enabled(s, step) && Waits(s, w, c) && Unhindered(step, w, c.run)
    ensures Waits(Apply(s, step), w, c)
  {
    StepKeepsOwnership(s, step, Bystander(step));
    if c.run in s.db.runs {
      if step.Work? && step.w == w && s.workers[w].claim.run == c.run {
        assert RunOk(s.db, s.cfg, s.now, c.run);
      } else {
        RowUntouched(s, step, c.run);
      }
    }
  }

  lemma {:induction false} WaitsOn(s: World, history: seq<Step>, w: WorkerId, c: ClaimedRun)
    requires RunInv(s) && Possible(s, history) && Waits(s, w, c)
    requires forall i :: 0 <= i < |history| ==> Unhindered(history[i], w, c.run)
    ensures Waits(After(s, history), w, c)
    decreases |history|
  {
    if history != [] {
      assert Unhindered(history[0], w, c.run);
      WaitsStep(s, history[0], w, c);
      RunInvStep(s, history[0]);
      WaitsOn(Apply(s, history[0]), history[1..], w, c);
    }
  }

  /**
   A call whose graph reports a cancellation that nobody has requested neither fails nor requeues its run: the run
   stays as it is, for another worker to claim once its lease has lapsed.
   */
  lemma UnrequestedCancellationsWait(
    s: World, w: WorkerId, c: ClaimedRun, classifier: GraphEvent<Classification>, graph: GraphEvent<()>,
    history: seq<Step>)
    requires RunInv(s) && InCall(s, w, c)
    requires || (c.classificationOverride.None? && classifier.CancelSignalled?)
             || (GraphReached(c.classificationOverride, classifier) && graph.CancelSignalled?)
    requires Possible(Apply(s, Work(w, CallProvider(classifier, graph))), history)
    requires forall i :: 0 <= i < |history| ==> Unhindered(history[i], w, c.run)
    ensures Waits(After(Apply(s, Work(w, CallProvider(classifier, graph))), history), w, c)
  {
    var call := Work(w, CallProvider(classifier, graph));
    assert ClaimOk(s.db, s.issuedRuns, w, c);
    RunInvStep(s, call);
    WaitsOn(Apply(s, call), history, w, c);
  }

  /** An exception before the result is stored is a failure. */
  lemma ExceptionsOblige(s: World, w: WorkerId, c: ClaimedRun)
    requires RunInv(s) && Holds(s, w, c) && OwnedBy(s.db, c, w) && !Marked(s.db, c.run)
    requires CanMove(s.workers[w].phase, Raise)
    ensures Bound(Apply(s, Work(w, Raise)), w, c, Fail)
  {
    assert RunOk(s.db, s.cfg, s.now, c.run);
  }

  // ---------- a call that goes through ----------

  /** Completing an owned, unmarked run publishes it, unless another success of its configuration is there. */
  lemma CompletionPublishes(s: World, w: WorkerId, c: ClaimedRun)
    requires RunInv(s) && Holds(s, w, c) && OwnedBy(s.db, c, w) && !Marked(s.db, c.run)
    requires s.workers[w].phase.Saving? && s.db.runs[c.run].status == Validating
    ensures var t := Apply(s, Work(w, Complete));
            var run := s.db.runs[c.run];
            if exists q :: q in s.db.runs && Beaten(s.db, q, c.run) then t.db == s.db && Bound(t, w, c, Fail)
            else
              && w !in t.workers && t.db.results == s.db.results + {c.run}
              && t.db.runs[c.run].status == Succeeded && t.db.runs[c.run].workerId.None?
              && t.db.runs[c.run].classification == Some(s.workers[w].phase.classification)
              && t.db.documents[run.document].status == DocumentStatus.Ready
  {
    assert RunOk(s.db, s.cfg, s.now, c.run);
    if q :| q in s.db.runs && Beaten(s.db, q, c.run) {
    } else {
      forall q | q in s.db.runs && q != c.run && s.db.runs[q].status == Succeeded
                 && s.db.runs[q].document == s.db.runs[c.run].document
        ensures s.db.runs[q].config != s.db.runs[c.run].config
      {
        assert !Beaten(s.db, q, c.run);
      }
    }
  }

  /** The steps of a call that nothing interrupts. */
  function WholeCall(
    w: WorkerId, r: RunId, classifier: GraphEvent<Classification>, graph: GraphEvent<()>): seq<Step>
  {
    [Claim(w, r), Work(w, BeginExtraction), Work(w, CallProvider(classifier, graph)), Work(w, BeginValidation),
     Work(w, Complete)]
  }

  /** Everything a call needs of its run, and what its steps leave of the others. */
  predicate Proceeds(s: World, t: World, w: WorkerId, r: RunId, status: RunStatus) {
    && w in t.workers && t.workers[w].claim.run == r && OwnedBy(t.db, t.workers[w].claim, w) && !Marked(t.db, r)
    && t.db.runs[r].status == status && r in s.db.runs
    && t.db.runs == s.db.runs[r := t.db.runs[r]] && t.db.results == s.db.results
    && t.db.runs[r].document == s.db.runs[r].document && t.db.runs[r].config == s.db.runs[r].config
  }

  lemma ClaimProceeds(s: World, w: WorkerId, r: RunId)
    requires RunInv(s) && Enabled(s, Claim(w, r)) && !Marked(s.db, r)
    ensures var t := Apply(s, Claim(w, r));
            Proceeds(s, t, w, r, Preprocessing) && t.workers[w].phase == Preparing
  {
  }

  lemma ExtractionProceeds(s: World, w: WorkerId, r: RunId)
    requires RunInv(s) && Proceeds(s, s, w, r, Preprocessing) && s.workers[w].phase == Preparing
    ensures var t := Apply(s, Work(w, BeginExtraction));
            && Proceeds(s, t, w, r, Extracting) && t.workers[w].phase == Calling
            && t.workers[w].claim == s.workers[w].claim
  {
    assert RunOk(s.db, s.cfg, s.now, r);
  }

  lemma ValidationProceeds(s: World, w: WorkerId, r: RunId, k: Classification)
    requires RunInv(s) && Proceeds(s, s, w, r, Extracting) && s.workers[w].phase == Extracted(k)
    ensures var t := Apply(s, Work(w, BeginValidation));
            && Proceeds(s, t, w, r, Validating) && t.workers[w].phase == Saving(k)
            && t.workers[w].claim == s.workers[w].claim
  {
    assert RunOk(s.db, s.cfg, s.now, r);
  }

  lemma NoNewRivals(s: World, t: World, w: WorkerId, r: RunId, status: RunStatus)
    requires Proceeds(s, t, w, r, status) && status != Succeeded && s.db.runs[r].status != Succeeded
    requires !exists q :: q in s.db.runs && Beaten(s.db, q, r)
    ensures !exists q :: q in t.db.runs && Beaten(t.db, q, r)
  {
    forall q | q in t.db.runs ensures !Beaten(t.db, q, r) {
      assert q in s.db.runs && !Beaten(s.db, q, r);
    }
  }

  predicate Published(t: World, w: WorkerId, r: RunId, k: Classification) {
    && w !in t.workers && r in t.db.runs && t.db.runs[r].status == Succeeded && r in t.db.results
    && t.db.runs[r].classification == Some(k)
    && t.db.runs[r].document in t.db.documents
    && t.db.documents[t.db.runs[r].document].status == DocumentStatus.Ready
  }

  lemma SavingPublishes(s: World, w: WorkerId, r: RunId, k: Classification)
    requires RunInv(s) && Proceeds(s, s, w, r, Validating) && s.workers[w].phase == Saving(k)
    requires !exists q :: q in s.db.runs && Beaten(s.db, q, r)
    ensures Possible(s, [Work(w, Complete)]) && Published(After(s, [Work(w, Complete)]), w, r, k)
  {
    CompletionPublishes(s, w, s.workers[w].claim);
    assert RunOk(s.db, s.cfg, s.now, r);
    StepThen(s, Work(w, Complete), []);
    assert [Work(w, Complete)] + [] == [Work(w, Complete)];
  }

  lemma ExtractedPublishes(s: World, w: WorkerId, r: RunId, k: Classification)
    requires RunInv(s) && Proceeds(s, s, w, r, Extracting) && s.workers[w].phase == Extracted(k)
    requires !exists q :: q in s.db.runs && Beaten(s.db, q, r)
    ensures var rest := [Work(w, BeginValidation), Work(w, Complete)];
            Possible(s, rest) && Published(After(s, rest), w, r, k)
  {
    var t := Apply(s, Work(w, BeginValidation));
    ValidationProceeds(s, w, r, k);
    RunInvStep(s, Work(w, BeginValidation));
    NoNewRivals(s, t, w, r, Validating);
    SavingPublishes(t, w, r, k);
    StepThen(s, Work(w, BeginValidation), [Work(w, Complete)]);
    assert [Work(w, BeginValidation)] + [Work(w, Complete)] == [Work(w, BeginValidation), Work(w, Complete)];
  }

  /** The classification an extraction is stored with. */
  function Decided(override: Option<Classification>, classifier: GraphEvent<Classification>): Classification
    requires GraphReached(override, classifier)
  {
    if override.Some? then override.value else classifier.value
  }

  lemma CallingPublishes(
    s: World, w: WorkerId, r: RunId, classifier: GraphEvent<Classification>, graph: GraphEvent<()>)
    requires RunInv(s) && Proceeds(s, s, w, r, Extracting) && s.workers[w].phase == Calling
    requires !exists q :: q in s.db.runs && Beaten(s.db, q, r)
    requires GraphReached(s.workers[w].claim.classificationOverride, classifier) && graph.Returned?
    ensures var rest := [Work(w, CallProvider(classifier, graph)), Work(w, BeginValidation), Work(w, Complete)];
            && Possible(s, rest)
            && Published(After(s, rest), w, r, Decided(s.workers[w].claim.classificationOverride, classifier))
  {
    var call, rest := Work(w, CallProvider(classifier, graph)), [Work(w, BeginValidation), Work(w, Complete)];
    ProviderObliges(s, w, s.workers[w].claim, classifier, graph);
    RunInvStep(s, call);
    ExtractedPublishes(Apply(s, call), w, r, Decided(s.workers[w].claim.classificationOverride, classifier));
    StepThen(s, call, rest);
    assert [call] + rest == [call, Work(w, BeginValidation), Work(w, Complete)];
  }

  /** What is left of a call once the run is claimed. */
  lemma PreparingPublishes(
    s: World, w: WorkerId, r: RunId, classifier: GraphEvent<Classification>, graph: GraphEvent<()>)
    requires RunInv(s) && Proceeds(s, s, w, r, Preprocessing) && s.workers[w].phase == Preparing
    requires !exists q :: q in s.db.runs && Beaten(s.db, q, r)
    requires GraphReached(s.workers[w].claim.classificationOverride, classifier) && graph.Returned?
    ensures var rest := WholeCall(w, r, classifier, graph)[1..];
            && Possible(s, rest)
            && Published(After(s, rest), w, r, Decided(s.workers[w].claim.classificationOverride, classifier))
  {
    var t := Apply(s, Work(w, BeginExtraction));
    ExtractionProceeds(s, w, r);
    RunInvStep(s, Work(w, BeginExtraction));
    NoNewRivals(s, t, w, r, Extracting);
    CallingPublishes(t, w, r, classifier, graph);
    var rest := [Work(w, CallProvider(classifier, graph)), Work(w, BeginValidation), Work(w, Complete)];
    StepThen(s, Work(w, BeginExtraction), rest);
    assert WholeCall(w, r, classifier, graph)[1..] == [Work(w, BeginExtraction)] + rest;
  }

  /**
   A claimable, unmarked run without a rival success is published by a call that nothing interrupts, with the
   override or the classification the gate let through: result, success, and a ready document.
   */
  lemma WholeCallsPublish(
    s: World, w: WorkerId, r: RunId, classifier: GraphEvent<Classification>, graph: GraphEvent<()>)
    requires RunInv(s) && Enabled(s, Claim(w, r)) && !Marked(s.db, r)
    requires !exists q :: q in s.db.runs && Beaten(s.db, q, r)
    requires GraphReached(OverrideOf(s.db.runs[r]), classifier) && graph.Returned?
    ensures Possible(s, WholeCall(w, r, classifier, graph))
    ensures Published(After(s, WholeCall(w, r, classifier, graph)), w, r,
                      Decided(OverrideOf(s.db.runs[r]), classifier))
  {
    assert RunOk(s.db, s.cfg, s.now, r);
    var t := Apply(s, Claim(w, r));
    ClaimProceeds(s, w, r);
    ClaimHoldsTheRow(s, w, r);
    RunInvStep(s, Claim(w, r));
    NoNewRivals(s, t, w, r, Preprocessing);
    PreparingPublishes(t, w, r, classifier, graph);
    StepThen(s, Claim(w, r), WholeCall(w, r, classifier, graph)[1..]);
    assert WholeCall(w, r, classifier, graph) == [Claim(w, r)] + WholeCall(w, r, classifier, graph)[1..];
  }

  /** The classification a worker is told to take for granted. */
  function OverrideOf(run: Run): Option<Classification> {
    if run.classificationOverride then run.classification else None
  }
}
