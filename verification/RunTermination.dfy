/** How often one run can change status, be requeued, or succeed for its configuration. */
module RunTermination {
  import opened Wrappers
  import opened Entities
  import opened Processor
  import opened Requests
  import opened Protocol
  import opened RunInvariants
  import opened RunTheorems

  function Max(a: int, b: int): int {
    if a < b then b else a
  }

  /** Four units per attempt left, plus the stages still ahead of a worker. */
  function Measure(cfg: Settings, run: Run): nat {
    var attemptsLeft := 4 * Max(0, cfg.maxAttempts - run.attemptCount);
    match run.status
    case Queued => attemptsLeft
    case Preprocessing => attemptsLeft + 3
    case Extracting => attemptsLeft + 2
    case Validating => attemptsLeft + 1
    case _ => 0
  }

  /** The requeues a run still has in it. */
  function RequeuesLeft(cfg: Settings, run: Run): nat {
    match run.status
    case Queued => Max(0, cfg.maxAttempts - run.attemptCount - 1)
    case Preprocessing => Max(0, cfg.maxAttempts - run.attemptCount)
    case Extracting => Max(0, cfg.maxAttempts - run.attemptCount)
    case Validating => Max(0, cfg.maxAttempts - run.attemptCount)
    case _ => 0
  }

  /** The step moves run `r` to another status or another attempt. */
  ghost predicate Advances(s: World, step: Step, r: RunId)
    requires Enabled(s, step)
  {
    var t := Apply(s, step);
    && r in s.db.runs && r in t.db.runs
    && (s.db.runs[r].status != t.db.runs[r].status || s.db.runs[r].attemptCount != t.db.runs[r].attemptCount)
  }

  /** A lapsed lease is taken over although the configured attempts are used up. */
  predicate ExhaustedReclaim(s: World, step: Step, r: RunId) {
    && step.Claim? && step.r == r && r in s.db.runs
    && Active(s.db.runs[r].status) && s.cfg.maxAttempts <= s.db.runs[r].attemptCount
  }

  ghost predicate Requeues(s: World, step: Step, r: RunId)
    requires Enabled(s, step)
  {
    Advances(s, step, r) && Active(s.db.runs[r].status) && Apply(s, step).db.runs[r].status == Queued
  }

  /** How the two bounds compare before and after one row changes hands or stages. */
  predicate Lowers(cfg: Settings, before: Run, after: Run) {
    && (after.status == before.status && after.attemptCount == before.attemptCount ==>
          Measure(cfg, after) == Measure(cfg, before))
    && (after.status != before.status || after.attemptCount != before.attemptCount ==>
          Measure(cfg, after) < Measure(cfg, before))
    && RequeuesLeft(cfg, after) + (if Active(before.status) && after.status == Queued then 1 else 0)
         <= RequeuesLeft(cfg, before)
  }

  lemma RewriteLowers(cfg: Settings, now: int, before: Run, after: Run)
    requires RowOk(cfg, now, before) && RowOk(cfg, now, after) && RowRewrite(before, after)
    ensures Lowers(cfg, before, after)
  {
  }

  lemma WorkLowers(s: World, w: WorkerId, move: Move, r: RunId)
    requires RunInv(s) && w in s.workers && CanMove(s.workers[w].phase, move) && r in s.db.runs
    ensures var after := MoveResult(s, s.workers[w], w, move).0;
            r in after.runs && Lowers(s.cfg, s.db.runs[r], after.runs[r])
  {
    var after := MoveResult(s, s.workers[w], w, move).0;
    assert RunOk(s.db, s.cfg, s.now, r);
    MoveRewrites(s, w, move);
    if after != s.db && s.workers[w].claim.run == r {
      RewriteLowers(s.cfg, s.now, s.db.runs[r], after.runs[r]);
    }
  }

  lemma CancelLowers(s: World, r: RunId)
    requires RunInv(s) && CanCancel(s.db, r)
    ensures Lowers(s.cfg, s.db.runs[r], CancelRun(s.db, s.now, r).runs[r])
  {
    assert RunOk(s.db, s.cfg, s.now, r);
  }

  lemma ClaimLowers(s: World, w: WorkerId, r: RunId)
    requires RunInv(s) && Claimable(s.db, s.now, r)
    ensures var before, after := s.db.runs[r], ClaimNextRun(s.db, s.cfg, s.now, w, r).0.runs[r];
            if Active(before.status) && s.cfg.maxAttempts <= before.attemptCount
            then Measure(s.cfg, after) == 3 && 1 <= Measure(s.cfg, before)
                 && RequeuesLeft(s.cfg, after) <= RequeuesLeft(s.cfg, before)
            else Lowers(s.cfg, before, after)
  {
    assert RunOk(s.db, s.cfg, s.now, r);
  }

  /** Every change of status or attempt lowers the measure, except taking over an exhausted run. */
  lemma StepLowersMeasure(s: World, step: Step, r: RunId)
    requires RunInv(s) && Enabled(s, step) && r in s.db.runs && r in Apply(s, step).db.runs
    ensures var before, after := s.db.runs[r], Apply(s, step).db.runs[r];
            if ExhaustedReclaim(s, step, r)
            then Measure(s.cfg, after) == 3 && 1 <= Measure(s.cfg, before)
                 && RequeuesLeft(s.cfg, after) <= RequeuesLeft(s.cfg, before)
            else Lowers(s.cfg, before, after)
  {
    assert RunOk(s.db, s.cfg, s.now, r);
    if step.Work? {
      WorkLowers(s, step.w, step.move, r);
    } else if step.Claim? && step.r == r {
      ClaimLowers(s, step.w, r);
    } else if step.Cancel? && step.r == r {
      CancelLowers(s, r);
    } else {
      RowUntouched(s, step, r);
    }
  }

  // ---------- counting over histories ----------

  ghost function CountAdvances(s: World, history: seq<Step>, r: RunId): nat
    requires Possible(s, history)
    decreases |history|
  {
    if history == [] then 0
    else (if Advances(s, history[0], r) then 1 else 0) + CountAdvances(Apply(s, history[0]), history[1..], r)
  }

  ghost function CountExhausted(s: World, history: seq<Step>, r: RunId): nat
    requires Possible(s, history)
    decreases |history|
  {
    if history == [] then 0
    else (if ExhaustedReclaim(s, history[0], r) then 1 else 0) + CountExhausted(Apply(s, history[0]), history[1..], r)
  }

  ghost function CountRequeues(s: World, history: seq<Step>, r: RunId): nat
    requires Possible(s, history)
    decreases |history|
  {
    if history == [] then 0
    else (if Requeues(s, history[0], r) then 1 else 0) + CountRequeues(Apply(s, history[0]), history[1..], r)
  }

  function MeasureOrFull(s: World, r: RunId): nat {
    if r in s.db.runs then Measure(s.cfg, s.db.runs[r])
    else if r in s.issuedRuns then 0
    else 4 * s.cfg.maxAttempts
  }

  function RequeuesLeftOrFull(s: World, r: RunId): nat {
    if r in s.db.runs then RequeuesLeft(s.cfg, s.db.runs[r])
    else if r in s.issuedRuns then 0
    else Max(0, s.cfg.maxAttempts - 1)
  }

  /** The measures of rows that appear or disappear in a step. */
  lemma AppearingRow(s: World, step: Step, r: RunId)
    requires RunInv(s) && Enabled(s, step)
    requires !(r in s.db.runs && r in Apply(s, step).db.runs)
    ensures MeasureOrFull(Apply(s, step), r) <= MeasureOrFull(s, r)
    ensures RequeuesLeftOrFull(Apply(s, step), r) <= RequeuesLeftOrFull(s, r)
  {
    var t := Apply(s, step);
    StepKeepsOwnership(s, step, Bystander(step));
    if r in t.db.runs {
      NewRowIsFresh(s, step, r);
    }
  }

  lemma NewRowIsFresh(s: World, step: Step, r: RunId)
    requires RunInv(s) && Enabled(s, step) && r !in s.db.runs && r in Apply(s, step).db.runs
    ensures Apply(s, step).db.runs[r].status == Queued && Apply(s, step).db.runs[r].attemptCount == 0
  {
    if step.Work? {
      MoveRewrites(s, step.w, step.move);
    }
  }

  /**
   A run changes status at most as often as its measure allows: 4 times per configured attempt over its whole
   life, plus three for each takeover after its attempts are used up.
   */
  lemma {:induction false} StatusChangesAreBounded(s: World, history: seq<Step>, r: RunId)
    requires RunInv(s) && Possible(s, history)
    ensures CountAdvances(s, history, r) <= MeasureOrFull(s, r) + 3 * CountExhausted(s, history, r)
    decreases |history|
  {
    if history != [] {
      var t := Apply(s, history[0]);
      RunInvStep(s, history[0]);
      StatusChangesAreBounded(t, history[1..], r);
      if r in s.db.runs && r in t.db.runs {
        StepLowersMeasure(s, history[0], r);
      } else {
        AppearingRow(s, history[0], r);
      }
    }
  }

  /** However workers, rate limits and crashes interleave, a run is requeued fewer times than the attempt limit. */
  lemma {:induction false} RequeuesAreBounded(s: World, history: seq<Step>, r: RunId)
    requires RunInv(s) && Possible(s, history)
    ensures CountRequeues(s, history, r) <= RequeuesLeftOrFull(s, r)
    decreases |history|
  {
    if history != [] {
      var t := Apply(s, history[0]);
      RunInvStep(s, history[0]);
      RequeuesAreBounded(t, history[1..], r);
      if r in s.db.runs && r in t.db.runs {
        StepLowersMeasure(s, history[0], r);
      } else {
        AppearingRow(s, history[0], r);
      }
    }
  }

  /** From the empty pipeline: at most max - 1 requeues of any run, ever. */
  lemma RequeuedFewerThanMaxTimes(s: World, history: seq<Step>, r: RunId)
    requires Initial(s) && Possible(s, history)
    ensures CountRequeues(s, history, r) <= s.cfg.maxAttempts - 1
    ensures CountExhausted(s, history, r) == 0 ==> CountAdvances(s, history, r) <= 4 * s.cfg.maxAttempts
  {
    RequeuesAreBounded(s, history, r);
    StatusChangesAreBounded(s, history, r);
  }

  // ---------- one success per configuration ----------

  predicate SameSuccess(q: Run, r: Run) {
    && q.status == Succeeded && r.status == Succeeded
    && q.document == r.document && q.config == r.config
  }

  predicate UniqueSuccess(db: Tables) {
    forall q, r :: q in db.runs && r in db.runs && SameSuccess(db.runs[q], db.runs[r]) ==> q == r
  }

  /** A success in the new state is an old one, or the one the index has just admitted. */
  lemma SuccessAfterStep(s: World, step: Step, r: RunId)
    requires RunInv(s) && Enabled(s, step)
    requires r in Apply(s, step).db.runs && Apply(s, step).db.runs[r].status == Succeeded
    ensures r in s.db.runs
    ensures s.db.runs[r].status == Succeeded ==> Apply(s, step).db.runs[r] == s.db.runs[r]
    ensures s.db.runs[r].status != Succeeded ==>
              && step.Work? && s.workers[step.w].claim.run == r && SuccessIndexAdmits(s.db, r)
              && Apply(s, step).db.runs[r].document == s.db.runs[r].document
              && Apply(s, step).db.runs[r].config == s.db.runs[r].config
  {
    if r !in s.db.runs {
      NewRowIsFresh(s, step, r);
    } else {
      assert RunOk(s.db, s.cfg, s.now, r);
      if step.Work? {
        MoveRewrites(s, step.w, step.move);
      } else if (step.Claim? || step.Cancel?) && step.r == r {
      } else {
        RowUntouched(s, step, r);
      }
    }
  }

  lemma UniqueSuccessStep(s: World, step: Step)
    requires RunInv(s) && UniqueSuccess(s.db) && Enabled(s, step)
    ensures UniqueSuccess(Apply(s, step).db)
  {
    var db := Apply(s, step).db;
    forall q, r | q in db.runs && r in db.runs && SameSuccess(db.runs[q], db.runs[r])
      ensures q == r
    {
      SuccessAfterStep(s, step, q);
      SuccessAfterStep(s, step, r);
      assert SameSuccess(s.db.runs[q], s.db.runs[r]) ==> q == r;
    }
  }

  /**
   Retries and forced runs may be in flight side by side, but two of one configuration never both succeed: the
   second completion violates the index, nothing is written, and its worker turns to failing the run.
   */
  lemma {:induction false} OneSuccessPerConfiguration(s: World, history: seq<Step>)
    requires RunInv(s) && UniqueSuccess(s.db) && Possible(s, history)
    ensures UniqueSuccess(After(s, history).db)
    decreases |history|
  {
    if history != [] {
      UniqueSuccessStep(s, history[0]);
      RunInvStep(s, history[0]);
      OneSuccessPerConfiguration(Apply(s, history[0]), history[1..]);
    }
  }

  /** Another run of the same document and configuration has succeeded already. */
  predicate Beaten(db: Tables, q: RunId, r: RunId) {
    && q in db.runs && r in db.runs
    && db.runs[q].status == Succeeded && db.runs[r].status != Succeeded
    && db.runs[q].document == db.runs[r].document && db.runs[q].config == db.runs[r].config
  }

  /** Runs of one document are only ever removed together. */
  lemma RunsGoTogether(s: World, step: Step, q: RunId, r: RunId)
    requires RunInv(s) && Enabled(s, step) && q in s.db.runs && r in s.db.runs
    requires s.db.runs[q].document == s.db.runs[r].document && r in Apply(s, step).db.runs
    ensures q in Apply(s, step).db.runs
  {
    if step.Work? {
      MoveRewrites(s, step.w, step.move);
    }
  }

  /** No step changes the document or the configuration of a run. */
  lemma RunKeepsItsConfiguration(s: World, step: Step, r: RunId)
    requires RunInv(s) && Enabled(s, step) && r in s.db.runs && r in Apply(s, step).db.runs
    ensures Apply(s, step).db.runs[r].document == s.db.runs[r].document
    ensures Apply(s, step).db.runs[r].config == s.db.runs[r].config
  {
    if step.Work? {
      MoveRewrites(s, step.w, step.move);
    } else if (step.Claim? || step.Cancel?) && step.r == r {
    } else {
      RowUntouched(s, step, r);
    }
  }

  lemma BeatenStep(s: World, step: Step, q: RunId, r: RunId)
    requires RunInv(s) && Enabled(s, step) && Beaten(s.db, q, r) && r in Apply(s, step).db.runs
    ensures Beaten(Apply(s, step).db, q, r)
  {
    RunsGoTogether(s, step, q, r);
    RunKeepsItsConfiguration(s, step, q);
    RunKeepsItsConfiguration(s, step, r);
    TerminalStep(s, step, q);
    if Apply(s, step).db.runs[r].status == Succeeded {
      SuccessAfterStep(s, step, r);
    }
  }

  /** A run that another success has beaten never succeeds and never gets a result, along every continuation. */
  lemma {:induction false} BeatenRunsNeverSucceed(s: World, history: seq<Step>, q: RunId, r: RunId)
    requires RunInv(s) && Possible(s, history) && Beaten(s.db, q, r)
    ensures r in After(s, history).db.runs ==> Beaten(After(s, history).db, q, r)
    ensures r !in After(s, history).db.results
    decreases |history|
  {
    if history == [] {
      assert RunOk(s.db, s.cfg, s.now, r);
    } else {
      var t := Apply(s, history[0]);
      RunInvStep(s, history[0]);
      if r in t.db.runs {
        BeatenStep(s, history[0], q, r);
        BeatenRunsNeverSucceed(t, history[1..], q, r);
      } else {
        StepKeepsOwnership(s, history[0], Bystander(history[0]));
        TerminalIsFinal(t, history[1..], r);
        RunInvAlways(t, history[1..]);
      }
    }
  }

  /** The worker of a beaten run is about to complete it, or already on its way to failing it. */
  predicate Losing(s: World, w: WorkerId, c: ClaimedRun, q: RunId) {
    && Holds(s, w, c)
    && OwnedBy(s.db, c, w)
    && Beaten(s.db, q, c.run)
    && s.db.runs[c.run].status == Validating
    && (|| s.workers[w].phase.Saving?
        || s.workers[w].phase.Acknowledging?
        || s.workers[w].phase == Settling(Fail)
        || s.workers[w].phase == Acting(Fail))
    && (s.workers[w].phase.Acknowledging? ==> Marked(s.db, c.run))
  }

  /** The run failed, was cancelled, waits for its requested cancellation, or is gone. */
  predicate Lost(s: World, r: RunId) {
    && r in s.issuedRuns
    && (r in s.db.runs ==>
          s.db.runs[r].status == RunStatus.Failed || s.db.runs[r].status == Cancelled || Abandoned(s, r))
  }

  lemma LosingMove(s: World, move: Move, w: WorkerId, c: ClaimedRun, q: RunId)
    requires RunInv(s) && Losing(s, w, c, q) && CanMove(s.workers[w].phase, move) && move != Abandon
    ensures Losing(Worked(s, w, move), w, c, q) || Lost(Worked(s, w, move), c.run)
  {
    assert RunOk(s.db, s.cfg, s.now, c.run);
    assert ClaimOk(s.db, s.issuedRuns, w, c);
  }

  lemma LosingStep(s: World, step: Step, w: WorkerId, c: ClaimedRun, q: RunId)
    requires RunInv(s) && Enabled(s, step) && Losing(s, w, c, q) && Undisturbed(step, w, c.run)
    ensures Losing(Apply(s, step), w, c, q) || Lost(Apply(s, step), c.run)
  {
    if step.Work? && step.w == w {
      LosingMove(s, step.move, w, c, q);
    } else {
      LosingRowStays(s, step, w, c.run);
      BeatenStep(s, step, q, c.run);
    }
  }

  lemma LosingRowStays(s: World, step: Step, w: WorkerId, r: RunId)
    requires RunInv(s) && Enabled(s, step) && r in s.db.runs && s.db.runs[r].status == Validating
    requires s.db.runs[r].workerId == Some(w) && Undisturbed(step, w, r) && !(step.Work? && step.w == w)
    ensures var t := Apply(s, step);
            && r in t.db.runs && t.db.runs[r].status == Validating && t.db.runs[r].workerId == Some(w)
            && (Marked(s.db, r) ==> Marked(t.db, r))
  {
    if !(step.Cancel? && step.r == r) {
      RowUntouched(s, step, r);
      if step.Storage? {
        DoomedSurvivesStorage(s, step.event, r);
      }
    }
  }

  lemma LostStep(s: World, step: Step, w: WorkerId, r: RunId)
    requires RunInv(s) && Enabled(s, step) && Lost(s, r) && Undisturbed(step, w, r)
    ensures Lost(Apply(s, step), r)
  {
    StepKeepsOwnership(s, step, Bystander(step));
    if r in s.db.runs && Abandoned(s, r) {
      AbandonedStep(s, step, r);
    } else {
      TerminalStep(s, step, r);
    }
  }

  lemma LosingOrLost(s: World, step: Step, w: WorkerId, c: ClaimedRun, q: RunId)
    requires RunInv(s) && Enabled(s, step) && Undisturbed(step, w, c.run)
    requires Losing(s, w, c, q) || Lost(s, c.run)
    ensures Losing(Apply(s, step), w, c, q) || Lost(Apply(s, step), c.run)
  {
    if Lost(s, c.run) {
      LostStep(s, step, w, c.run);
    } else {
      LosingStep(s, step, w, c, q);
    }
  }

  lemma {:induction false} LosersLose(s: World, history: seq<Step>, w: WorkerId, c: ClaimedRun, q: RunId)
    requires RunInv(s) && Possible(s, history) && (Losing(s, w, c, q) || Lost(s, c.run))
    requires forall i :: 0 <= i < |history| ==> Undisturbed(history[i], w, c.run)
    ensures Losing(After(s, history), w, c, q) || Lost(After(s, history), c.run)
    decreases |history|
  {
    if history != [] {
      var t := Apply(s, history[0]);
      assert Undisturbed(history[0], w, c.run);
      LosingOrLost(s, history[0], w, c, q);
      RunInvStep(s, history[0]);
      LosersLose(t, history[1..], w, c, q);
    }
  }

  /**
   A worker about to complete a beaten run, unless it crashes or is fenced, ends its call with the run failed,
   cancelled, or waiting for a cancellation requested meanwhile.
   */
  lemma BeatenCallsFail(s: World, history: seq<Step>, w: WorkerId, c: ClaimedRun, q: RunId)
    requires RunInv(s) && Possible(s, history) && Losing(s, w, c, q)
    requires forall i :: 0 <= i < |history| ==> Undisturbed(history[i], w, c.run)
    ensures !Holds(After(s, history), w, c) ==> Lost(After(s, history), c.run)
  {
    LosersLose(s, history, w, c, q);
  }
}
