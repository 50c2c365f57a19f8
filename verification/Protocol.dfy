/**
 The whole pipeline as a state machine: every database transaction, every object write and every move of a
 worker's control flow is one step, and steps of workers, users, clocks and crashes interleave freely.
 */
module Protocol {
  import opened Wrappers
  import opened Entities
  import opened ModelProvider
  import opened Processor
  import opened Requests
  import opened Uploads

  // What `process_next_document` still owes when it has failed to acknowledge a cancellation.
  datatype Action = Fail | Block(decision: Classification) | Requeue

  // Where a worker stands inside one `process_next_document` call.
  datatype Phase =
    | Preparing                                   // preprocessing the original
    | Calling                                     // inside the provider call
    | Extracted(classification: Classification)   // the provider returned an extraction
    | Saving(classification: Classification)      // about to complete the run
    | Acknowledging                               // acknowledge a cancellation, then return
    | Settling(action: Action)                    // acknowledge a cancellation, else act
    | Acting(action: Action)                      // the acknowledgement found nothing to acknowledge

  datatype Worker = Worker(claim: ClaimedRun, phase: Phase)

  // A worker without an entry is idle.
  datatype World = World(
    cfg: Settings, now: int, db: Tables, store: Store, workers: map<WorkerId, Worker>,
    issuedRuns: set<RunId>, issuedKeys: set<nat>)

  // One move of a worker inside its call.
  datatype Move =
    | Heartbeat
    | ReportStage
    | BeginExtraction
    | CallProvider(classifier: GraphEvent<Classification>, graph: GraphEvent<()>)
    | BeginValidation
    | Complete
    | Acknowledge
    | Act
    | Raise       // any exception of the body: the run is to be failed
    | Abandon     // a crash, or an exception that leaves the call

  // The requests that queue a new run.
  datatype Request =
    | Create(d: DocumentId, config: RunConfig, force: bool)
    | Retry(d: DocumentId, latest: RunId, config: RunConfig)
    | Confirm(d: DocumentId, latest: RunId, config: RunConfig)

  // Uploads, deletions and the outbox.
  datatype StorageEvent =
    | Reserve(d: DocumentId, workspace: WorkspaceId, byteSize: nat, opaqueId: nat)
    | ClientPut(opaqueId: nat, body: seq<Byte>)
    | Finish(d: DocumentId, body: seq<Byte>, r: RunId, config: RunConfig)
    | FinishDuplicate(d: DocumentId, e: DocumentId, body: seq<Byte>)
    | Abort(d: DocumentId, body: seq<Byte>)
    | Compensate(key: Key, deleted: bool)
    | Discard(d: DocumentId)
    | CancelPending(d: DocumentId)
    | Expire(d: DocumentId)
    | RemoveOriginal(d: DocumentId)
    | RemoveDocument(d: DocumentId)
    | RunDeletion(key: Key, deleted: bool)
    | InterruptDeletion(key: Key)   // the object is gone, and the process with it, before the outbox row is

  datatype Step =
    | Tick(seconds: nat)
    | Claim(w: WorkerId, r: RunId)
    | Work(w: WorkerId, move: Move)
    | Ask(r: RunId, request: Request)
    | Cancel(r: RunId)
    | Storage(event: StorageEvent)

  /** The worker's guarded action after an unsuccessful acknowledgement. */
  function ActionTx(s: World, c: ClaimedRun, w: WorkerId, action: Action): Tx {
    match action
    case Fail => FailRun(s.db, c, w)
    case Block(decision) => BlockRunForScope(s.db, c, w, decision)
    case Requeue => RequeueRateLimitedRun(s.db, s.cfg, s.now, c, w)
  }

  function AfterProvider(cfg: Settings, c: ClaimedRun, outcome: Outcome): Phase {
    match outcome
    case Extraction(classification) => Extracted(classification)
    case ScopeBlocked(decision) => Settling(Block(decision))
    case RateLimited => Settling(if c.attemptCount < cfg.maxAttempts then Requeue else Fail)
    case ProviderCancelled => Acknowledging
    case ProviderFailed => Settling(Fail)
  }

  predicate CanMove(phase: Phase, move: Move) {
    match move
    case Heartbeat => true
    case ReportStage => phase.Calling?
    case BeginExtraction => phase.Preparing?
    case CallProvider(_, _) => phase.Calling?
    case BeginValidation => phase.Extracted?
    case Complete => phase.Saving?
    case Acknowledge => phase.Acknowledging? || phase.Settling?
    case Act => phase.Acting?
    case Raise => phase.Preparing? || phase.Calling? || phase.Extracted? || phase.Saving?
    case Abandon => true
  }

  predicate CanAsk(db: Tables, request: Request) {
    match request
    case Create(d, config, force) => CanCreateRun(db, d, config, force)
    case Retry(d, latest, _) => CanRetry(db, d, latest)
    case Confirm(d, latest, _) => CanConfirm(db, d, latest)
  }

  predicate CanFinish(s: World, d: DocumentId, body: seq<Byte>) {
    PendingUpload(s.db, d) && |body| == s.db.documents[d].byteSize
  }

  ghost predicate CanStore(s: World, event: StorageEvent) {
    match event
    case Reserve(d, _, byteSize, opaqueId) => opaqueId !in s.issuedKeys && CanCreateUpload(s.db, s.cfg, d, byteSize)
    case ClientPut(opaqueId, _) => opaqueId in s.issuedKeys
    case Finish(d, body, r, _) => r !in s.issuedRuns && CanFinish(s, d, body) && !HasDuplicate(s.db, d, Sha256(body))
    case FinishDuplicate(d, e, body) => CanFinish(s, d, body) && IsDuplicateOf(s.db, d, e, Sha256(body))
    case Abort(d, body) =>
      && CanFinish(s, d, body)
      && forall e :: e in s.db.documents && IsDuplicateOf(s.db, d, e, Sha256(body)) ==> s.db.documents[e].key.None?
    case Compensate(key, _) => key in s.store.unwinding
    case Discard(d) => PendingUpload(s.db, d)
    case CancelPending(d) => CanCancelUpload(s.db, d)
    case Expire(d) => UploadExpired(s.db, s.now, d)
    case RemoveOriginal(d) => CanDeleteOriginal(s.db, d)
    case RemoveDocument(d) => CanDeletePermanently(s.db, d)
    case RunDeletion(key, _) => key in s.store.outbox
    case InterruptDeletion(key) => key in s.store.outbox
  }

  ghost predicate Enabled(s: World, step: Step) {
    match step
    case Tick(_) => true
    case Claim(w, r) => w !in s.workers && Claimable(s.db, s.now, r)
    case Work(w, move) => w in s.workers && CanMove(s.workers[w].phase, move)
    case Ask(r, request) => r !in s.issuedRuns && CanAsk(s.db, request)
    case Cancel(r) => CanCancel(s.db, r)
    case Storage(event) => CanStore(s, event)
  }

  /** What one move does: the tables, and the phase the worker goes to (None when its call returns). */
  function MoveResult(s: World, worker: Worker, w: WorkerId, move: Move): (Tables, Option<Phase>)
    requires CanMove(worker.phase, move)
  {
    var Worker(c, phase) := worker;
    match move
    case Heartbeat => (MaintainLease(s.db, s.cfg, s.now, c, w).db, Some(phase))
    case ReportStage => (SetProgressStage(s.db, s.cfg, s.now, c, w).db, Some(phase))
    case BeginExtraction =>
      var tx := AdvanceStage(s.db, s.cfg, s.now, c, w, Preprocessing, Extracting);
      (tx.db, Some(if tx.ok then Calling else Acknowledging))
    case CallProvider(classifier, graph) =>
      (s.db, Some(AfterProvider(s.cfg, c, ExtractDocument(c.classificationOverride, classifier, graph))))
    case BeginValidation =>
      var tx := AdvanceStage(s.db, s.cfg, s.now, c, w, Extracting, Validating);
      (tx.db, Some(if tx.ok then Saving(phase.classification) else Acknowledging))
    case Complete =>
      var tx := CompleteRun(s.db, c, w, phase.classification);
      (tx.db, if tx.ok then None
              else if GuardNotCancelled(s.db, c, w, {Validating}) then Some(Settling(Fail))
              else Some(Acknowledging))
    case Acknowledge =>
      var tx := AcknowledgeCancellation(s.db, c, w);
      (tx.db, if tx.ok || phase.Acknowledging? then None else Some(Acting(phase.action)))
    case Act => (ActionTx(s, c, w, phase.action).db, None)
    case Raise => (s.db, Some(Settling(Fail)))
    case Abandon => (s.db, None)
  }

  function Worked(s: World, w: WorkerId, move: Move): World
    requires w in s.workers && CanMove(s.workers[w].phase, move)
  {
    var (db, phase) := MoveResult(s, s.workers[w], w, move);
    s.(db := db,
       workers := match phase
         case None => s.workers - {w}
         case Some(next) => s.workers[w := s.workers[w].(phase := next)])
  }

  function Asked(s: World, r: RunId, request: Request): World
    requires CanAsk(s.db, request)
  {
    var db := match request
      case Create(d, config, _) => CreateRun(s.db, s.now, d, r, config)
      case Retry(d, latest, config) => RetryRun(s.db, s.now, d, latest, r, config)
      case Confirm(d, latest, config) => ConfirmRun(s.db, s.now, d, latest, r, config);
    s.(db := db, issuedRuns := s.issuedRuns + {r})
  }

  ghost function Stored(s: World, event: StorageEvent): Site
    requires CanStore(s, event)
  {
    var site := Site(s.db, s.store);
    match event
    case Reserve(d, workspace, byteSize, opaqueId) =>
      site.(db := CreateUpload(s.db, s.cfg, s.now, d, workspace, byteSize, opaqueId))
    case ClientPut(opaqueId, body) => site.(store := s.store.(objects := s.store.objects[Incoming(opaqueId) := body]))
    case Finish(d, body, r, config) => CompleteFresh(site, s.now, d, body, r, config)
    case FinishDuplicate(d, e, body) => CompleteDuplicate(site, d, e, body)
    case Abort(d, body) => CompletionAborted(site, d, body)
    case Compensate(key, deleted) => site.(store := Compensated(s.store, key, deleted))
    case Discard(d) => DiscardInvalidUpload(site, d)
    case CancelPending(d) => CancelUpload(site, d)
    case Expire(d) => CancelUpload(site, d)
    case RemoveOriginal(d) => DeleteOriginal(site, s.now, d)
    case RemoveDocument(d) => DeletePermanently(site, d)
    case RunDeletion(key, deleted) => site.(store := ProcessObjectDeletion(s.store, key, deleted))
    case InterruptDeletion(key) => site.(store := s.store.(objects := s.store.objects - {key}))
  }

  ghost function Apply(s: World, step: Step): World
    requires Enabled(s, step)
  {
    match step
    case Tick(seconds) => s.(now := s.now + seconds)
    case Claim(w, r) =>
      var (db, c) := ClaimNextRun(s.db, s.cfg, s.now, w, r);
      s.(db := db, workers := s.workers[w := Worker(c, Preparing)])
    case Work(w, move) => Worked(s, w, move)
    case Ask(r, request) => Asked(s, r, request)
    case Cancel(r) => s.(db := CancelRun(s.db, s.now, r))
    case Storage(event) =>
      var site := Stored(s, event);
      s.(db := site.db, store := site.store,
         issuedRuns := if event.Finish? then s.issuedRuns + {event.r} else s.issuedRuns,
         issuedKeys := if event.Reserve? then s.issuedKeys + {event.opaqueId} else s.issuedKeys)
  }

  // ---------- histories ----------

  /** Every step of the history is enabled where it is taken. */
  ghost predicate Possible(s: World, history: seq<Step>)
    decreases |history|
  {
    history == [] || (Enabled(s, history[0]) && Possible(Apply(s, history[0]), history[1..]))
  }

  ghost function After(s: World, history: seq<Step>): World
    requires Possible(s, history)
    decreases |history|
  {
    if history == [] then s else After(Apply(s, history[0]), history[1..])
  }

  lemma StepThen(s: World, step: Step, rest: seq<Step>)
    requires Enabled(s, step) && Possible(Apply(s, step), rest)
    ensures Possible(s, [step] + rest) && After(s, [step] + rest) == After(Apply(s, step), rest)
  {
    assert ([step] + rest)[1..] == rest;
  }

  lemma FourSteps(s: World, a: Step, b: Step, c: Step, d: Step)
    requires Enabled(s, a) && Enabled(Apply(s, a), b) && Enabled(Apply(Apply(s, a), b), c)
    requires Enabled(Apply(Apply(Apply(s, a), b), c), d)
    ensures Possible(s, [a, b, c, d]) && After(s, [a, b, c, d]) == Apply(Apply(Apply(Apply(s, a), b), c), d)
  {
    StepThen(Apply(Apply(Apply(s, a), b), c), d, []);
    StepThen(Apply(Apply(s, a), b), c, [d] + []);
    StepThen(Apply(s, a), b, [c] + ([d] + []));
    StepThen(s, a, [b] + ([c] + ([d] + [])));
    assert [a] + ([b] + ([c] + ([d] + []))) == [a, b, c, d];
  }

  predicate Initial(s: World) {
    && s.cfg.maxAttempts >= 1
    && s.db == Tables(map[], map[], {})
    && s.store == Store(map[], multiset{}, multiset{})
    && s.workers == map[]
    && s.issuedRuns == {} && s.issuedKeys == {}
  }
}
