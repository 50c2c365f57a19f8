/**
 Gated requests of many clients against the shared records, interleaved transaction by transaction: at most one
 execution per key until its record is lost for a stated reason, and faithful replay until expiry.
 */
module IdempotencyProtocol {
  import opened Wrappers
  import opened Idempotency

  type RequestId = nat

  datatype Phase =
    | Looking(key: Key, body: seq<Byte>, now: int)
    | TakingOver(key: Key, body: seq<Byte>, now: int, pending: set<RecordId>, victim: RecordId)
    | Inserting(key: Key, body: seq<Byte>, now: int, pending: set<RecordId>)
    | Executing(key: Key, body: seq<Byte>, record: RecordId)
    | Streaming(key: Key, body: seq<Byte>, record: RecordId, response: Response)
    | Ended(answer: Option<Answer>)

  datatype World = World(table: Table, clock: int, issued: RecordId, requests: map<RequestId, Phase>)

  datatype Step =
    | Tick(seconds: nat)
    | Arrive(q: RequestId, key: Key, body: seq<Byte>)
    | Look(q: RequestId)
    | TakeOver(q: RequestId)
    | Insert(q: RequestId, createdAt: int)
    | Raise(q: RequestId)
    | Respond(q: RequestId, response: Response)
    | Finish(q: RequestId, finished: bool)
    | Vanish(q: RequestId)

  predicate Owns(phase: Phase) {
    phase.Executing? || phase.Streaming?
  }

  predicate Enabled(w: World, step: Step) {
    match step
    case Tick(_) => true
    case Arrive(q, _, _) => q !in w.requests
    case Look(q) => q in w.requests && w.requests[q].Looking?
    case TakeOver(q) => q in w.requests && w.requests[q].TakingOver?
    case Insert(q, createdAt) => q in w.requests && w.requests[q].Inserting? && w.requests[q].now <= createdAt <= w.clock
    case Raise(q) => q in w.requests && w.requests[q].Executing?
    case Respond(q, _) => q in w.requests && w.requests[q].Executing?
    case Finish(q, _) => q in w.requests && w.requests[q].Streaming?
    // A crash of the process, or a finalizer whose transaction fails.
    case Vanish(q) => q in w.requests && !w.requests[q].Ended?
  }

  function Moved(w: World, q: RequestId, phase: Phase): World {
    w.(requests := w.requests[q := phase])
  }

  ghost function LookNext(cfg: Settings, w: World, q: RequestId): World
    requires Enabled(w, Look(q))
  {
    var p := w.requests[q];
    var (table, found) := LookedUp(cfg, w.table, p.key, p.body, p.now);
    match found
    case Answered(answer) => Moved(w.(table := table), q, Ended(Some(answer)))
    case MustTakeOver(victim, pending) => Moved(w.(table := table), q, TakingOver(p.key, p.body, p.now, pending, victim))
    case MayInsert(pending) => Moved(w.(table := table), q, Inserting(p.key, p.body, p.now, pending))
  }

  function InsertNext(cfg: Settings, w: World, q: RequestId, createdAt: int): World
    requires Enabled(w, Insert(q, createdAt))
  {
    var p := w.requests[q];
    var (table, won) := Inserted(cfg, w.table, p.pending, w.issued, NewEntry(cfg, p.key, p.body, p.now, createdAt));
    if won then Moved(w.(table := table, issued := w.issued + 1), q, Executing(p.key, p.body, w.issued))
    else Moved(w, q, Ended(Some(AlreadyInProgress)))
  }

  ghost function Next(cfg: Settings, w: World, step: Step): World
    requires Enabled(w, step)
  {
    match step
    case Tick(seconds) => w.(clock := w.clock + seconds)
    case Arrive(q, key, body) => Moved(w, q, Looking(key, body, w.clock))
    case Look(q) => LookNext(cfg, w, q)
    case TakeOver(q) =>
      var p := w.requests[q];
      Moved(w.(table := TakenOver(w.table, p.pending, p.victim)), q, Inserting(p.key, p.body, p.now, {}))
    case Insert(q, createdAt) => InsertNext(cfg, w, q, createdAt)
    case Raise(q) => Moved(w.(table := w.table - {w.requests[q].record}), q, Ended(None))
    case Respond(q, response) =>
      Moved(w, q, Streaming(w.requests[q].key, w.requests[q].body, w.requests[q].record, response))
    case Finish(q, finished) =>
      var p := w.requests[q];
      Moved(w.(table := Finalized(cfg, w.table, p.record, p.response, finished)), q, Ended(None))
    case Vanish(q) => Moved(w, q, Ended(None))
  }

  /** A run: every step is possible where it happens. */
  ghost predicate IsRun(cfg: Settings, w: World, steps: seq<Step>)
    decreases |steps|
  {
    steps == [] || (Enabled(w, steps[0]) && IsRun(cfg, Next(cfg, w, steps[0]), steps[1..]))
  }

  ghost function After(cfg: Settings, w: World, steps: seq<Step>): World
    requires IsRun(cfg, w, steps)
    decreases |steps|
  {
    if steps == [] then w else After(cfg, Next(cfg, w, steps[0]), steps[1..])
  }

  // ---------- the invariant ----------

  /** An owner's record, if still there, carries the owner's request and no response yet. */
  predicate OwnerOk(w: World, phase: Phase) {
    Owns(phase) ==>
      && phase.record < w.issued
      && (phase.record in w.table ==>
            var entry := w.table[phase.record];
            entry.key == phase.key && entry.body == phase.body && entry.response.None?)
  }

  predicate PhaseOk(cfg: Settings, w: World, phase: Phase) {
    && OwnerOk(w, phase)
    && (phase.Looking? ==> phase.now <= w.clock)
    && (phase.Inserting? || phase.TakingOver? ==>
          && phase.now <= w.clock
          && forall i :: i in phase.pending ==> i < w.issued && (i in w.table ==> w.table[i].expiresAt <= phase.now))
    && (phase.TakingOver? ==> phase.victim < w.issued && (phase.victim in w.table ==> WasStale(cfg, w, phase)))
  }

  /** The victim has the request's key, and is old enough to have been stale when it was read. */
  predicate WasStale(cfg: Settings, w: World, phase: Phase)
    requires phase.TakingOver? && phase.victim in w.table
  {
    w.table[phase.victim].key == phase.key && w.table[phase.victim].createdAt <= phase.now - cfg.inProgress
  }

  predicate Inv(cfg: Settings, w: World) {
    && UniqueKeys(w.table)
    && (forall i :: i in w.table ==> i < w.issued && w.table[i].expiresAt <= w.table[i].createdAt + cfg.ttl)
    && (forall q :: q in w.requests ==> PhaseOk(cfg, w, w.requests[q]))
    && (forall q, p :: q in w.requests && p in w.requests && q != p && Owns(w.requests[q]) && Owns(w.requests[p]) ==>
          w.requests[q].record != w.requests[p].record)
  }

  /** A step that removes records and moves one request to a phase that owns nothing new. */
  lemma RemovalKeepsInv(cfg: Settings, w: World, table: Table, q: RequestId, phase: Phase)
    requires Inv(cfg, w) && q in w.requests
    requires forall i :: i in table ==> i in w.table && table[i] == w.table[i]
    requires PhaseOk(cfg, w, phase)
    requires Owns(phase) ==> Owns(w.requests[q]) && phase.record == w.requests[q].record
    ensures Inv(cfg, Moved(w.(table := table), q, phase))
  {
    var next := Moved(w.(table := table), q, phase);
    forall p | p in next.requests ensures PhaseOk(cfg, next, next.requests[p]) {
      assert PhaseOk(cfg, w, if p == q then phase else w.requests[p]);
    }
  }

  lemma InvStep(cfg: Settings, w: World, step: Step)
    requires Inv(cfg, w) && Enabled(w, step)
    ensures Inv(cfg, Next(cfg, w, step))
  {
    match step
    case Tick(_) =>
    case Arrive(_, _, _) =>
    case Look(q) => LookKeepsInv(cfg, w, q);
    case TakeOver(q) => TakeOverKeepsInv(cfg, w, q);
    case Insert(q, createdAt) => InsertKeepsInv(cfg, w, q, createdAt);
    case Finish(q, finished) => FinishKeepsInv(cfg, w, q, finished);
    case Raise(q) => RemovalKeepsInv(cfg, w, w.table - {w.requests[q].record}, q, Ended(None));
    case Respond(q, response) => RespondKeepsInv(cfg, w, q, response);
    case Vanish(q) => RemovalKeepsInv(cfg, w, w.table, q, Ended(None));
  }

  lemma RespondKeepsInv(cfg: Settings, w: World, q: RequestId, response: Response)
    requires Inv(cfg, w) && Enabled(w, Respond(q, response))
    ensures Inv(cfg, Next(cfg, w, Respond(q, response)))
  {
    var p := w.requests[q];
    assert PhaseOk(cfg, w, p);
    RemovalKeepsInv(cfg, w, w.table, q, Streaming(p.key, p.body, p.record, response));
  }

  lemma LookKeepsInv(cfg: Settings, w: World, q: RequestId)
    requires Inv(cfg, w) && Enabled(w, Look(q))
    ensures Inv(cfg, LookNext(cfg, w, q))
  {
    var p := w.requests[q];
    var (table, found) := LookedUp(cfg, w.table, p.key, p.body, p.now);
    assert PhaseOk(cfg, w, p);
    var phase := match found
      case Answered(answer) => Ended(Some(answer))
      case MustTakeOver(victim, pending) => TakingOver(p.key, p.body, p.now, pending, victim)
      case MayInsert(pending) => Inserting(p.key, p.body, p.now, pending);
    RemovalKeepsInv(cfg, w, table, q, phase);
  }

  lemma TakeOverKeepsInv(cfg: Settings, w: World, q: RequestId)
    requires Inv(cfg, w) && Enabled(w, TakeOver(q))
    ensures Inv(cfg, Next(cfg, w, TakeOver(q)))
  {
    var p := w.requests[q];
    assert PhaseOk(cfg, w, p);
    RemovalKeepsInv(cfg, w, TakenOver(w.table, p.pending, p.victim), q, Inserting(p.key, p.body, p.now, {}));
  }

  lemma InsertKeepsInv(cfg: Settings, w: World, q: RequestId, createdAt: int)
    requires Inv(cfg, w) && Enabled(w, Insert(q, createdAt))
    ensures Inv(cfg, InsertNext(cfg, w, q, createdAt))
  {
    var next := InsertNext(cfg, w, q, createdAt);
    forall p | p in next.requests ensures PhaseOk(cfg, next, next.requests[p]) {
      if p != q {
        assert PhaseOk(cfg, w, w.requests[p]);
      }
    }
    forall p | p in w.requests && p != q && Owns(w.requests[p]) ensures w.requests[p].record < w.issued {
      assert PhaseOk(cfg, w, w.requests[p]);
    }
  }

  lemma FinishKeepsInv(cfg: Settings, w: World, q: RequestId, finished: bool)
    requires Inv(cfg, w) && Enabled(w, Finish(q, finished))
    ensures Inv(cfg, Next(cfg, w, Finish(q, finished)))
  {
    var next := Next(cfg, w, Finish(q, finished));
    forall p | p in next.requests ensures PhaseOk(cfg, next, next.requests[p]) {
      if p != q {
        assert PhaseOk(cfg, w, w.requests[p]);
      }
    }
  }

  // ---------- why a record goes away ----------

  /** The only ways to lose a record: it expired, it was read as stale under its key, or its owner gave it up. */
  predicate Justified(cfg: Settings, w: World, step: Step, r: RecordId)
    requires Enabled(w, step) && r in w.table
  {
    var entry := w.table[r];
    match step
    case Look(q) => entry.expiresAt <= w.requests[q].now
    case TakeOver(q) =>
      || entry.expiresAt <= w.requests[q].now
      || (w.requests[q].victim == r && WasStale(cfg, w, w.requests[q]))
    case Insert(q, _) => entry.expiresAt <= w.requests[q].now
    case Raise(q) => w.requests[q].record == r
    case Finish(q, finished) => w.requests[q].record == r && (!finished || !Replayable(cfg, w.requests[q].response))
    case _ => false
  }

  lemma LossesAreJustified(cfg: Settings, w: World, step: Step, r: RecordId)
    requires Inv(cfg, w) && Enabled(w, step) && r in w.table && r !in Next(cfg, w, step).table
    ensures Justified(cfg, w, step, r)
  {
    match step
    case TakeOver(q) => assert PhaseOk(cfg, w, w.requests[q]);
    case Insert(q, _) => assert PhaseOk(cfg, w, w.requests[q]);
    case _ =>
  }

  /** A record keeps its request and its times; its response is set once, by its owner, when replayable. */
  lemma RecordsKeepTheirRequest(cfg: Settings, w: World, step: Step, r: RecordId)
    requires Inv(cfg, w) && Enabled(w, step) && r in w.table && r in Next(cfg, w, step).table
    ensures var before, after := w.table[r], Next(cfg, w, step).table[r];
            && after == before.(response := after.response)
            && (before.response.Some? ==> after == before)
            && (after != before ==>
                  && step.Finish? && step.finished && w.requests[step.q].record == r
                  && after.response == Some(w.requests[step.q].response) && Replayable(cfg, after.response.value))
  {
    match step
    case Insert(q, _) => assert r < w.issued;
    case Finish(q, _) => assert PhaseOk(cfg, w, w.requests[q]);
    case _ =>
  }

  /** A late finalizer or a failing handler touches no record but its own, and none at all once that one is lost. */
  lemma OwnersTouchOnlyTheirRecord(cfg: Settings, w: World, step: Step, r: RecordId)
    requires Enabled(w, step) && (step.Raise? || step.Finish?) && r in w.table && w.requests[step.q].record != r
    ensures r in Next(cfg, w, step).table && Next(cfg, w, step).table[r] == w.table[r]
    ensures w.requests[step.q].record !in w.table ==> Next(cfg, w, step).table == w.table
  {
  }

  // ---------- over every run ----------

  predicate Initial(w: World) {
    w.table == map[] && w.requests == map[]
  }

  lemma {:induction false} InvAlways(cfg: Settings, w: World, steps: seq<Step>)
    requires (Initial(w) || Inv(cfg, w)) && IsRun(cfg, w, steps)
    ensures Inv(cfg, After(cfg, w, steps))
    decreases |steps|
  {
    if steps != [] {
      InvStep(cfg, w, steps[0]);
      InvAlways(cfg, Next(cfg, w, steps[0]), steps[1..]);
    }
  }

  /** The insert wins and its request goes on to execute the handler. */
  predicate Executes(w: World, step: Step) {
    && step.Insert? && Enabled(w, step)
    && !Taken(w.table - w.requests[step.q].pending, w.requests[step.q].key)
  }

  /** Somewhere along the run the record is lost, for one of the stated reasons. */
  ghost predicate Lost(cfg: Settings, w: World, steps: seq<Step>, r: RecordId)
    requires IsRun(cfg, w, steps)
    decreases |steps|
  {
    && steps != []
    && (|| (r in w.table && r !in Next(cfg, w, steps[0]).table && Justified(cfg, w, steps[0], r))
        || Lost(cfg, Next(cfg, w, steps[0]), steps[1..], r))
  }

  lemma HeldKeysAreTaken(table: Table, pending: set<RecordId>, r: RecordId)
    requires r in table
    ensures r in pending || Taken(table - pending, table[r].key)
  {
    var rest := table - pending;
    if r !in pending {
      assert r in rest && rest[r].key == table[r].key;
    }
  }

  lemma {:induction false} KeyIsHeldUntilLost(cfg: Settings, w: World, steps: seq<Step>, r: RecordId, last: Step)
    requires Inv(cfg, w) && IsRun(cfg, w, steps) && r in w.table
    requires var end := After(cfg, w, steps);
             Executes(end, last) && end.requests[last.q].key == w.table[r].key
    ensures Lost(cfg, w, steps, r) || (r in After(cfg, w, steps).table && Justified(cfg, After(cfg, w, steps), last, r))
    decreases |steps|
  {
    if steps == [] {
      HeldKeysAreTaken(w.table, w.requests[last.q].pending, r);
      assert PhaseOk(cfg, w, w.requests[last.q]);
    } else {
      var next := Next(cfg, w, steps[0]);
      InvStep(cfg, w, steps[0]);
      if r in next.table {
        RecordsKeepTheirRequest(cfg, w, steps[0], r);
        KeyIsHeldUntilLost(cfg, next, steps[1..], r, last);
      } else {
        LossesAreJustified(cfg, w, steps[0], r);
      }
    }
  }

  /**
   At most once: after one request has started to execute, another with the same session, method, target and key
   starts only after the first one's record expired, went stale, or was given up by its owner.
   */
  lemma SecondExecutionNeedsALoss(cfg: Settings, w: World, first: Step, between: seq<Step>, second: Step)
    requires Inv(cfg, w) && Executes(w, first) && IsRun(cfg, Next(cfg, w, first), between)
    requires var end := After(cfg, Next(cfg, w, first), between);
             Executes(end, second) && end.requests[second.q].key == w.requests[first.q].key
    ensures var end := After(cfg, Next(cfg, w, first), between);
            || Lost(cfg, Next(cfg, w, first), between, w.issued)
            || (w.issued in end.table && Justified(cfg, end, second, w.issued))
  {
    InvStep(cfg, w, first);
    KeyIsHeldUntilLost(cfg, Next(cfg, w, first), between, w.issued, second);
  }

  // ---------- replay ----------

  /** A request has read this record as stale and has yet to delete it. */
  ghost predicate Condemned(w: World, r: RecordId) {
    exists q :: q in w.requests && w.requests[q].TakingOver? && w.requests[q].victim == r
  }

  /** A stored response is only lost by expiry, or to a request that had read its record as stale before. */
  lemma CompletedStays(cfg: Settings, w: World, step: Step, r: RecordId)
    requires Inv(cfg, w) && Enabled(w, step) && r in w.table && w.table[r].response.Some?
    requires w.clock < w.table[r].expiresAt && !Condemned(w, r)
    ensures r in Next(cfg, w, step).table && Next(cfg, w, step).table[r] == w.table[r]
    ensures !Condemned(Next(cfg, w, step), r)
  {
    StaysUnlessLost(cfg, w, step, r);
    NotCondemnedLater(cfg, w, step, r);
  }

  lemma StaysUnlessLost(cfg: Settings, w: World, step: Step, r: RecordId)
    requires Inv(cfg, w) && Enabled(w, step) && r in w.table && w.table[r].response.Some?
    requires w.clock < w.table[r].expiresAt && !Condemned(w, r)
    ensures r in Next(cfg, w, step).table && Next(cfg, w, step).table[r] == w.table[r]
  {
    if step.Look? || step.TakeOver? || step.Insert? || step.Raise? || step.Finish? {
      assert PhaseOk(cfg, w, w.requests[step.q]);
    }
    if r !in Next(cfg, w, step).table {
      LossesAreJustified(cfg, w, step, r);
    } else {
      RecordsKeepTheirRequest(cfg, w, step, r);
    }
  }

  /** Only an unfinished record is condemned. */
  lemma NotCondemnedLater(cfg: Settings, w: World, step: Step, r: RecordId)
    requires Enabled(w, step) && r in w.table && w.table[r].response.Some? && !Condemned(w, r)
    ensures !Condemned(Next(cfg, w, step), r)
  {
    var next := Next(cfg, w, step);
    forall q | q in next.requests && next.requests[q].TakingOver? ensures next.requests[q].victim != r {
      if q in w.requests && next.requests[q] == w.requests[q] {
        assert w.requests[q].victim != r;
      } else {
        assert step == Look(q);
      }
    }
  }

  lemma {:induction false} ClockRuns(cfg: Settings, w: World, steps: seq<Step>)
    requires IsRun(cfg, w, steps)
    ensures w.clock <= After(cfg, w, steps).clock
    decreases |steps|
  {
    if steps != [] {
      ClockRuns(cfg, Next(cfg, w, steps[0]), steps[1..]);
    }
  }

  lemma {:induction false} CompletedUntilExpiry(cfg: Settings, w: World, steps: seq<Step>, r: RecordId)
    requires Inv(cfg, w) && IsRun(cfg, w, steps) && r in w.table && w.table[r].response.Some? && !Condemned(w, r)
    requires After(cfg, w, steps).clock < w.table[r].expiresAt
    ensures r in After(cfg, w, steps).table && After(cfg, w, steps).table[r] == w.table[r]
    decreases |steps|
  {
    if steps != [] {
      var next := Next(cfg, w, steps[0]);
      ClockRuns(cfg, w, steps);
      CompletedStays(cfg, w, steps[0], r);
      InvStep(cfg, w, steps[0]);
      CompletedUntilExpiry(cfg, next, steps[1..], r);
    }
  }

  lemma LookAnswers(cfg: Settings, w: World, q: RequestId, r: RecordId)
    requires Inv(cfg, w) && Enabled(w, Look(q)) && r in w.table && w.table[r].key == w.requests[q].key
    requires w.requests[q].now < w.table[r].expiresAt && !Stale(cfg, w.table[r], w.requests[q].now)
    ensures Next(cfg, w, Look(q)).requests[q] == Ended(Some(AnswerFor(w.table[r], w.requests[q].body)))
    ensures r in Next(cfg, w, Look(q)).table && Next(cfg, w, Look(q)).table[r] == w.table[r]
  {
    var live := WithoutExpired(w.table, w.requests[q].now);
    assert r in live && live[r] == w.table[r];
    assert Find(live, w.requests[q].key) == r;
  }

  /**
   Once a response is stored, and unless some request had read its record as stale before, every later lookup of the
   key before expiry answers with exactly that status and body if the request is the same, and with a conflict if it
   is not; nothing executes and the record stays.
   */
  lemma EqualRequestsAreReplayed(cfg: Settings, w: World, steps: seq<Step>, r: RecordId, q: RequestId)
    requires Inv(cfg, w) && IsRun(cfg, w, steps) && r in w.table && w.table[r].response.Some? && !Condemned(w, r)
    requires var end := After(cfg, w, steps);
             && Enabled(end, Look(q)) && end.requests[q].key == w.table[r].key
             && end.clock < w.table[r].expiresAt
    ensures var end := After(cfg, w, steps);
            Next(cfg, end, Look(q)).requests[q]
            == Ended(Some(if end.requests[q].body == w.table[r].body then Replayed(w.table[r].response.value)
                          else DifferentRequest))
  {
    var end := After(cfg, w, steps);
    CompletedUntilExpiry(cfg, w, steps, r);
    InvAlways(cfg, w, steps);
    assert PhaseOk(cfg, end, end.requests[q]);
    LookAnswers(cfg, end, q, r);
  }

  /** While the first request is still running and not stale, equal requests are told so and others conflict. */
  lemma RunningRequestsBlock(cfg: Settings, w: World, owner: RequestId, q: RequestId)
    requires Inv(cfg, w) && owner in w.requests && Owns(w.requests[owner]) && w.requests[owner].record in w.table
    requires Enabled(w, Look(q)) && w.requests[q].key == w.requests[owner].key
    requires var entry := w.table[w.requests[owner].record];
             w.requests[q].now < entry.expiresAt && w.requests[q].now < entry.createdAt + cfg.inProgress
    ensures Next(cfg, w, Look(q)).requests[q]
            == Ended(Some(if w.requests[q].body == w.requests[owner].body then AlreadyInProgress else DifferentRequest))
  {
    assert PhaseOk(cfg, w, w.requests[owner]);
    LookAnswers(cfg, w, q, w.requests[owner].record);
  }

  // ---------- when a takeover can lose a stored response ----------

  lemma CondemnedMeansExpired(cfg: Settings, w: World, r: RecordId)
    requires Inv(cfg, w) && cfg.ttl <= cfg.inProgress && r in w.table && Condemned(w, r)
    ensures w.table[r].expiresAt <= w.clock
  {
    var q :| q in w.requests && w.requests[q].TakingOver? && w.requests[q].victim == r;
    assert PhaseOk(cfg, w, w.requests[q]);
  }

  /** Where records are taken over only once they have expired, every stored response is kept until then. */
  lemma LateTakeoversLoseNothing(cfg: Settings, w: World, steps: seq<Step>, r: RecordId)
    requires Inv(cfg, w) && IsRun(cfg, w, steps) && cfg.ttl <= cfg.inProgress
    requires r in w.table && w.table[r].response.Some? && After(cfg, w, steps).clock < w.table[r].expiresAt
    ensures r in After(cfg, w, steps).table && After(cfg, w, steps).table[r] == w.table[r]
  {
    ClockRuns(cfg, w, steps);
    if Condemned(w, r) {
      CondemnedMeansExpired(cfg, w, r);
    }
    CompletedUntilExpiry(cfg, w, steps, r);
  }

  function Empty(): World {
    World(map[], 0, 0, map[])
  }

  lemma OneMoreStep(cfg: Settings, w: World, steps: seq<Step>, step: Step)
    requires IsRun(cfg, w, steps) && Enabled(After(cfg, w, steps), step)
    ensures IsRun(cfg, w, steps + [step]) && After(cfg, w, steps + [step]) == Next(cfg, After(cfg, w, steps), step)
    decreases |steps|
  {
    if steps == [] {
      assert steps + [step] == [step];
      assert [step][1..] == [];
    } else {
      OneMoreStep(cfg, Next(cfg, w, steps[0]), steps[1..], step);
      assert (steps + [step])[1..] == steps[1..] + [step];
    }
  }

  /** Arriving and finding nothing, a request inserts its record, executes and responds. */
  lemma FirstResponds(cfg: Settings, key: Key, body: seq<Byte>, response: Response) returns (steps: seq<Step>)
    ensures IsRun(cfg, Empty(), steps)
    ensures After(cfg, Empty(), steps) ==
              World(map[0 := Entry(key, body, 0, cfg.ttl, None)], 0, 1, map[0 := Streaming(key, body, 0, response)])
  {
    steps := [];
    OneMoreStep(cfg, Empty(), steps, Arrive(0, key, body));
    steps := steps + [Arrive(0, key, body)];
    var w1 := After(cfg, Empty(), steps);
    assert WithoutExpired(w1.table, 0) == map[] && Expired(w1.table, 0) == {};
    OneMoreStep(cfg, Empty(), steps, Look(0));
    steps := steps + [Look(0)];
    OneMoreStep(cfg, Empty(), steps, Insert(0, 0));
    steps := steps + [Insert(0, 0)];
    OneMoreStep(cfg, Empty(), steps, Respond(0, response));
    steps := steps + [Respond(0, response)];
  }

  lemma LookFindsStale(cfg: Settings, key: Key, body: seq<Byte>)
    requires cfg.inProgress < cfg.ttl
    ensures var table := map[0 := Entry(key, body, 0, cfg.ttl, None)];
            LookedUp(cfg, table, key, body, cfg.inProgress) == (table, MustTakeOver(0, {}))
  {
    var table: Table := map[0 := Entry(key, body, 0, cfg.ttl, None)];
    assert Expired(table, cfg.inProgress) == {} && WithoutExpired(table, cfg.inProgress) == table;
    assert Taken(table, key) by {
      assert 0 in table;
    }
    assert Find(table, key) == 0;
  }

  /** The first request has responded but not finished when the second reads its record as stale. */
  lemma StaleWhileStreaming(cfg: Settings, key: Key, body: seq<Byte>, response: Response) returns (steps: seq<Step>)
    requires cfg.inProgress < cfg.ttl
    ensures IsRun(cfg, Empty(), steps)
    ensures After(cfg, Empty(), steps) ==
              World(map[0 := Entry(key, body, 0, cfg.ttl, None)], cfg.inProgress, 1,
                    map[0 := Streaming(key, body, 0, response), 1 := TakingOver(key, body, cfg.inProgress, {}, 0)])
  {
    steps := FirstResponds(cfg, key, body, response);
    OneMoreStep(cfg, Empty(), steps, Tick(cfg.inProgress));
    steps := steps + [Tick(cfg.inProgress)];
    OneMoreStep(cfg, Empty(), steps, Arrive(1, key, body));
    steps := steps + [Arrive(1, key, body)];
    LookFindsStale(cfg, key, body);
    OneMoreStep(cfg, Empty(), steps, Look(1));
    steps := steps + [Look(1)];
  }

  /**
   Where a record can be taken over before it expires, a stored response can be lost: the second request reads the
   record as stale, the first then finishes, and the takeover deletes the response it has just stored.
   */
  lemma EarlyTakeoverLosesAResponse(cfg: Settings, key: Key, body: seq<Byte>, response: Response)
    returns (steps: seq<Step>)
    requires cfg.inProgress < cfg.ttl && Replayable(cfg, response)
    ensures IsRun(cfg, Empty(), steps)
    ensures var w := After(cfg, Empty(), steps);
            && 0 in w.table && w.table[0].response == Some(response) && w.clock < w.table[0].expiresAt
            && Enabled(w, TakeOver(1)) && 0 !in Next(cfg, w, TakeOver(1)).table
  {
    steps := StaleWhileStreaming(cfg, key, body, response);
    OneMoreStep(cfg, Empty(), steps, Finish(0, true));
    steps := steps + [Finish(0, true)];
  }

  // ---------- free keys ----------

  /** Every record under the request's key has expired, or is unfinished and old enough to be taken over. */
  predicate KeyIsFree(cfg: Settings, w: World, phase: Phase)
    requires phase.Looking?
  {
    forall i :: i in w.table && w.table[i].key == phase.key ==>
      w.table[i].expiresAt <= phase.now || (w.table[i].response.None? && w.table[i].createdAt + cfg.inProgress <= phase.now)
  }

  /** The request is executing, under a fresh record of its own that lives as long as configured. */
  predicate Admitted(cfg: Settings, w: World, q: RequestId, phase: Phase, createdAt: int)
    requires phase.Looking?
  {
    && q in w.requests && w.requests[q].Executing? && w.requests[q].record in w.table
    && w.table[w.requests[q].record] == Entry(phase.key, phase.body, createdAt, phase.now + cfg.ttl, None)
    && forall i :: i in w.table && w.table[i].key == phase.key ==> i == w.requests[q].record
  }

  lemma FreeKeyIsInserted(cfg: Settings, w: World, q: RequestId, createdAt: int, phase: Phase)
    requires Inv(cfg, w) && phase.Looking? && q in w.requests && phase.now <= createdAt <= w.clock
    requires w.requests[q].Inserting? && w.requests[q].key == phase.key && w.requests[q].body == phase.body
    requires w.requests[q].now == phase.now
    requires forall i :: i in w.table && w.table[i].key == phase.key ==> i in w.requests[q].pending
    ensures Enabled(w, Insert(q, createdAt)) && Admitted(cfg, Next(cfg, w, Insert(q, createdAt)), q, phase, createdAt)
  {
  }

  /** Looking at a free key leads to an insert, or to taking over the one record that is left. */
  lemma LookAtFreeKey(cfg: Settings, w: World, q: RequestId)
    requires Inv(cfg, w) && q in w.requests && w.requests[q].Looking? && KeyIsFree(cfg, w, w.requests[q])
    ensures var next, key := Next(cfg, w, Look(q)), w.requests[q].key;
            && next.table == w.table && next.clock == w.clock && next.issued == w.issued
            && (if next.requests[q].TakingOver? then
                  forall i :: i in w.table && w.table[i].key == key ==>
                    i in next.requests[q].pending || i == next.requests[q].victim
                else
                  && next.requests[q].Inserting?
                  && forall i :: i in w.table && w.table[i].key == key ==> i in next.requests[q].pending)
  {
    var p := w.requests[q];
    var live := WithoutExpired(w.table, p.now);
    forall i | i in w.table && w.table[i].key == p.key ensures i in Expired(w.table, p.now) || i in live {
    }
    if Taken(live, p.key) {
      var i := Find(live, p.key);
      assert Stale(cfg, live[i], p.now);
    }
  }

  /**
   A request whose key is free and whom nobody gets in the way of is executed: it looks, takes over the stale record if
   there is one, and inserts its own.
   */
  lemma FreeKeysExecute(cfg: Settings, w: World, q: RequestId, createdAt: int) returns (steps: seq<Step>)
    requires Inv(cfg, w) && q in w.requests && w.requests[q].Looking? && KeyIsFree(cfg, w, w.requests[q])
    requires w.requests[q].now <= createdAt <= w.clock
    ensures IsRun(cfg, w, steps) && Admitted(cfg, After(cfg, w, steps), q, w.requests[q], createdAt)
  {
    var phase := w.requests[q];
    var looked := Next(cfg, w, Look(q));
    InvStep(cfg, w, Look(q));
    LookAtFreeKey(cfg, w, q);
    assert IsRun(cfg, w, []) && After(cfg, w, []) == w;
    OneMoreStep(cfg, w, [], Look(q));
    steps := [] + [Look(q)];
    if looked.requests[q].TakingOver? {
      var taken := Next(cfg, looked, TakeOver(q));
      InvStep(cfg, looked, TakeOver(q));
      OneMoreStep(cfg, w, steps, TakeOver(q));
      steps := steps + [TakeOver(q)];
      FreeKeyIsInserted(cfg, taken, q, createdAt, phase);
    } else {
      FreeKeyIsInserted(cfg, looked, q, createdAt, phase);
    }
    OneMoreStep(cfg, w, steps, Insert(q, createdAt));
    steps := steps + [Insert(q, createdAt)];
  }
}
