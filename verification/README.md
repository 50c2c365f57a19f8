# CAssist: verified model of the document pipeline

CAssist turns accounting documents into reviewed data for Tally. This project models the parts of its backend where
several transactions, or several representations, have to agree, and proves what they keep:

- **The run protocol.** Workers claim runs under expiring leases, move them through guarded stages, requeue them on
  rate limits and end them in one of five ways, while users create, retry, confirm, cancel and delete. Every database
  transaction, every object write and every move of a worker's control flow is one step of a state machine
  (`Protocol`); crashes, clocks and all interleavings are included. `Processor`, `Requests` and `Uploads` define each
  transaction once as a function on the tables; `Database` is the same code as it runs, changing rows column by
  column, proved equal to those functions: the `Database.Session` rows below are that refinement, and what the
  transactions guarantee is in the rows of `RunTheorems`, `RunTermination`, `CallTheorems` (what a claim, a renewal and
  a whole call lead to), `StatusTheorems` (what a document's status says), `RequestTheorems` (what may be asked for
  next), `StorageTheorems` and `ObjectTheorems`.
- **Uploads, quota and the deletion outbox.** Reservation, verification, completion, deduplication, the compensating
  delete, cancellation, expiry, both deletions and the outbox, over one bucket.
- **Extraction, corrections, presentation, export.** A draft becomes a document with ids and issues; sections list its
  observations; boilerplate is removed; the result is dumped to JSON, corrected through JSON Pointers (RFC 6901)
  recorded in an append-only log, read back, selected from, approved under a version, and exported. The functions that
  do this are each proved to be what an independent description says: `NormalizationTheorems` and `RuleTheorems` for
  texts, `FinishTheorems` for finishing, `PathTheorems` and `SectionTheorems` for sections, `ReadingTheorems` for reading
  back, `HandoffTheorems` for the export.
- **Idempotency records**, as a protocol of concurrent gated requests.
- **Keyset paging** over a table that changes while it is listed.

Times are integers, identifiers are numbers or strings, and a content hash is injective by construction (it carries
its preimage). Findings where the code does less than its documentation or a reader would expect are stated as
exact conditions with a witness:

- Reading stored extraction data drops boilerplate blocks *before* it numbers the text blocks, so a correction of a
  later block addresses an earlier one (`CorrectionReaches`). From every sound result with two blocks or more, two
  accepted requests suffice: blank one block, correct a later one, and the block before that one is overwritten
  (`MisdirectedCorrection`).
- Storing what was read and reading it again is not always the identity: a field whose text normalizes to nothing no
  longer validates, and a blank title becomes first an empty one and then none (`ReadingBackIsIdentity`; a document
  that fails: `BlankFieldIsRejected`).
- A stored section that repeats an observation inside itself stays repeated (`ReadingCoversExactly`,
  `RepeatedObservationsStay`), and excluding that observation is accepted but forgotten, with all sections, at the
  next reading (`SelectionIsReadBack`, `RepeatedExclusionIsForgotten`).
- 101 stored sections that leave an observation out cannot be read at all (`ReadingFailsExactly`, `OneSectionTooMany`).
- The compensating delete of an aborted completion runs outside the transaction: run late it deletes an original that a
  second completion has committed, and a swallowed storage error leaves an object nobody accounts for
  (`OriginalsKeptExactly`, `OrphansExactly` and their two witnesses).
- The two quality detectors agree exactly on the drafts whose texts they judge alike before and after normalization,
  up to the 200th finding (`DetectorsAgreeExactly`; an accepted draft on which they differ: `DetectorsCanDisagree`).
- A stale idempotency record is read without a lock and deleted by id, so a response stored in between is lost, unless
  records are taken over only once they have expired (`LateTakeoversLoseNothing`, `EarlyTakeoverLosesAResponse`).

## Model

| member | source | states |
|---|---|---|
| RunTheorems.OneLiveClaim | backend/app/workers/processor.py:101-171 | In every reachable state no two claims of a run share an attempt number, and only the claim of the row's current attempt passes any guard. |
| RunTheorems.FencedStep | backend/app/workers/processor.py:379-390 | A worker that has lost its row changes no table by any of its transactions and cannot regain the row under the same claim. |
| RunTheorems.FencedForever | backend/app/workers/processor.py:85-98 | The same along every continuation: heartbeat, progress, advance, complete, block, fail, requeue and acknowledge of a fenced claim are all inert. |
| RunTheorems.ReclaimFences | backend/app/workers/processor.py:139-150 | A reclaim of an expired lease fences whoever held the run, along every continuation. |
| RunTheorems.RowUntouched | backend/app/workers/processor.py:190-201 | Only its own worker, a new claim, or a cancellation changes the row of an existing run. |
| RunTheorems.TerminalIsFinal | backend/app/workers/processor.py:242-298 | A run that is no longer queued or active never changes again while it exists. |
| RunTheorems.CancellationWins | backend/app/workers/processor.py:406-447 | Once requested, a cancellation is never cleared, the run stays active until it is cancelled, and no result is ever created, along every continuation. |
| RunTheorems.MarkedClaimEndsCancelled | backend/app/workers/processor.py:552-563 | Once a run already marked has been claimed, it stays marked and never reaches extracting along any history, crashes and reclaims included; and if the claiming worker is neither fenced nor crashed, its call ends with the run cancelled, on every exit path. |
| RunTheorems.LostRaceWaitsForItsLease | backend/app/workers/processor.py:629-648 | When the request arrives between acknowledgement and action, the action is refused, and along every history without a new claim the row stays exactly as it is and becomes claimable exactly when its lease has lapsed. |
| RunTheorems.NoStrandedWork | backend/app/workers/processor.py:113-116 | Every live run belongs to a document with an available original, so the claim's filter never hides it; pending uploads have no runs. |
| RunTheorems.StatusTellsAll | backend/app/models/entities.py:240-249 | In every reachable state a result exists iff the run succeeded, worker and lease are set iff it is active, a cancellation mark implies active or cancelled, and queued runs have attempts left. |
| RunTheorems.ScopeGate | backend/app/services/model_provider.py:292-341 | Every run with a result was approved by the gate, or is an override whose confirmation chain starts at an earlier uncertain run of the same document; never unrelated. |
| CallTheorems.ClaimHoldsTheRow | backend/app/workers/processor.py:128-171 | A claim holds the row for exactly the lease: until it lapses nobody can claim the run, and from then on anybody can; it counts the attempt and remembers an override. |
| CallTheorems.RenewalsHoldTheRow | backend/app/workers/processor.py:75-98 | A granted heartbeat, progress report or stage change holds the row for another full lease; a refused one leaves the tables alone. |
| CallTheorems.AttemptsCountClaims | backend/app/workers/processor.py:139-145 | Along every history a run's attempt number grows by exactly the number of its claims. |
| CallTheorems.CallsEndAsTheProviderSays | backend/app/workers/processor.py:629-694 | Along every history, a call whose graphs throttle, break or block ends, unless its worker crashes or is fenced or the run is cancelled meanwhile, with the run requeued and due the configured delay later while attempts are left, failed, or blocked with the decision of the gate. |
| CallTheorems.ActionTakesEffect | backend/app/workers/processor.py:470-505 | At the moment of the action the row becomes exactly that; a requeued run can be claimed by anybody from exactly its due time on. |
| CallTheorems.UnrequestedCancellationsWait | backend/app/workers/processor.py:629-694 | A call whose graph reports a cancellation that nobody has requested neither fails nor requeues its run: along every history it stays extracting under its worker, for another to claim once the lease has lapsed. |
| CallTheorems.WholeCallsPublish | backend/app/workers/processor.py:508-755 | A claimable, unmarked run without a rival success is published by a call that nothing interrupts, with the override or the classification the gate let through: result, success and a ready document. |
| StatusTheorems.DocumentFollowsItsRun | backend/app/workers/processor.py:242-505 | Whoever gives a run another status or attempt, worker, user or upload, leaves its document with the status that fits it. |
| StatusTheorems.StatusIsAlwaysBacked | backend/app/models/enums.py:10-17 | In every reachable state a document's status is accounted for by a run of it: uploaded by a queued one, processing by an active one, ready by a success, failed by a failed or cancelled one, and the two scope verdicts by a run that ended with them. |
| RequestTheorems.AfterBlock | backend/app/api/routes/documents.py:400-425 | After a run is blocked as uncertain its document can be confirmed and nothing else; after it is blocked as unsupported it can be neither confirmed nor run again, not even by force. |
| RequestTheorems.AfterFailure | backend/app/api/routes/documents.py:330-357 | After a failure the run can be retried and nothing confirmed; after a success (`AfterSuccess`) and a cancellation (`AfterCancellation`) neither. |
| RequestTheorems.AfterSuccess | backend/app/api/routes/documents.py:256-322 | A success is repeated only by force or under another configuration. |
| RequestTheorems.GrantedRunsAreClaimable | backend/app/api/routes/documents.py:256-458 | A granted request queues a fresh, unmarked run that anybody can claim at once, with exactly the configuration and the override it calls for, and leaves all other runs alone. |
| RequestTheorems.LiveRunsProtect | backend/app/api/routes/documents.py:503-583 | A document and its original can be deleted iff no run of it is queued or active, and the original is there. |
| RequestTheorems.CancellationIsHeard | backend/app/api/routes/runs.py:56-137 | A cancellation request ends a queued run at once, which nobody can claim any more, and only marks an active one. |
| RunInvariants.RunInvStep | backend/app/workers/processor.py:101-505 | The run invariant (rows, claims, originals) survives every step of every interleaving. |
| RunInvariants.RunInvAlways | backend/app/workers/processor.py:508-755 | Hence it holds after every possible history. |
| RunTermination.StepLowersMeasure | backend/app/workers/processor.py:139-145 | Every change of status or attempt lowers 4 per attempt left plus the stages ahead, except a reclaim after the attempts are used up. |
| RunTermination.StatusChangesAreBounded | backend/app/workers/processor.py:660-678 | Over a whole history a run changes status at most as often as its measure allows, plus three per exhausted reclaim. |
| RunTermination.RequeuedFewerThanMaxTimes | backend/app/workers/processor.py:470-505 | From the empty pipeline no run is ever requeued more than max - 1 times. |
| RunTermination.OneSuccessPerConfiguration | backend/app/models/entities.py:266-276 | Whatever is retried or forced side by side, two runs of one document and configuration never both succeed. |
| RunTermination.BeatenRunsNeverSucceed | backend/app/models/entities.py:266-276 | Once another run of its document and configuration has succeeded, a run never succeeds and never gets a result, along every continuation. |
| RunTermination.BeatenCallsFail | backend/app/workers/processor.py:720-749 | A worker about to complete such a run, unless it crashes or is fenced, ends its call with the run failed, cancelled, or waiting for a cancellation requested meanwhile, along every history. |
| ModelProvider.ExtractDocument | backend/app/services/model_provider.py:303-417 | Every outcome exactly, in terms of what the two graphs do: extraction iff the graph is reached and returns, with the override or the classification unchanged; a block iff the classification does not pass, for good only on confident irrelevance; rate-limited, cancelled and failed iff the consulted graph throttles, is cancelled or breaks. |
| Database.Session.ClaimNextRun | backend/app/workers/processor.py:101-171 | Claims the eligible, unlocked run with the earliest due time, ties broken by id, and writes exactly the claim transaction; none only if none is eligible. |
| Database.Session.MaintainLease | backend/app/workers/processor.py:75-98 | Extends the lease of an active run it owns and nothing else; reports whether it did. |
| Database.Session.AdvanceStage | backend/app/workers/processor.py:174-213 | Moves exactly an owned, unmarked run from the expected stage to the next and renews its lease. |
| Database.Session.SetProgressStage | backend/app/workers/processor.py:216-239 | Renews the lease of an owned, unmarked, extracting run and nothing else. |
| Database.Session.CompleteRun | backend/app/workers/processor.py:242-298 | Result, success, released lease and ready document together, or nothing when the guard or the unique index refuses. |
| Database.Session.BlockRunForScope | backend/app/workers/processor.py:301-364 | Ends an extracting run with its decision, and writes exactly the block transaction, whose effect on what may be asked for next is `AfterBlock`. |
| Database.Session.FailRun | backend/app/workers/processor.py:367-403 | Fails an owned, active, unmarked run and its document; otherwise nothing. |
| Database.Session.AcknowledgeCancellation | backend/app/workers/processor.py:406-447 | Cancels an owned, marked run; the document is ready iff another run of it succeeded. |
| Database.Session.RequeueRateLimitedRun | backend/app/workers/processor.py:470-505 | Puts an owned, unmarked run back in the queue with a later due time and no owner. |
| Database.Session.CancelRun | backend/app/api/routes/runs.py:56-137 | A queued run is cancelled at once, an active one marked once, a cancelled one confirmed, any other refused; the answer is the status the row then has, and each refusal has its reason. |
| Database.Session.CreateProcessingRun | backend/app/api/routes/documents.py:256-322 | Queues a run unless the original or the scope forbids it; otherwise, without force, answers with the run of that configuration that succeeded, or else is live, queued last. |
| Database.Session.RetryDocumentProcessing | backend/app/api/routes/documents.py:330-392 | Granted exactly when the original is available and the latest run failed; the retry inherits decision and override. |
| Database.Session.ConfirmDocumentProcessing | backend/app/api/routes/documents.py:400-458 | Granted exactly for a document blocked as uncertain by its latest run; the new run keeps the model and carries the override. |
| Database.Session.UsedStorageBytes | backend/app/api/routes/uploads.py:53-61 | The loop computes the sum of byte sizes over documents that hold a key. |
| Database.Session.CreateUpload | backend/app/api/routes/uploads.py:227-306 | Reserves iff the size is within the limit and the quota still admits it. |
| Database.Session.CompleteUpload | backend/app/api/routes/uploads.py:373-485 | Fresh content becomes an original with a queued run, known content is absorbed by the document that has it; it succeeds iff the commit does, and a failed commit leaves the tables as they were and compensates. |
| Database.Session.CancelUpload | backend/app/api/routes/uploads.py:147-224 | Removes a pending or unclaimed upload, enqueues its key, and for a pending one also the final key. |
| Database.Session.DiscardInvalidUpload | backend/app/api/routes/uploads.py:75-115 | Removes a rejected upload only while it is still pending under the same key. |
| Database.Session.DeleteOriginal | backend/app/api/routes/documents.py:503-543 | Gives up the original and enqueues its object iff no run is live and an original is there. |
| Database.Session.PermanentlyDeleteDocument | backend/app/api/routes/documents.py:546-583 | Removes the document with its runs and results and enqueues its object, unless a run is live. |
| Database.Session.CleanupOneExpiredUpload | backend/app/services/upload_cleanup.py:12-49 | Removes the expired, unlocked upload with the earliest deadline, ties broken by id, and enqueues both its keys. |
| Database.Session.ProcessOneObjectDeletion | backend/app/services/object_deletion.py:22-44 | Takes the named outbox row, or the oldest one no other transaction holds, deletes the object and then the row; on a storage error the row stays. |
| StorageTheorems.QuotaHolds | backend/app/api/routes/uploads.py:253-262 | In every reachable state the bytes of documents that hold a key are within the quota. |
| StorageTheorems.DedupConservesBytes | backend/app/api/routes/uploads.py:404-438 | A restored original takes exactly the bytes its upload gives up; otherwise the upload's bytes are freed. |
| StorageTheorems.BytesFollowEvents | backend/app/api/routes/uploads.py:53-61 | The stored bytes are accounted for exactly, event by event: reserved once, and freed when the key is given up unless another document takes it over. |
| StorageTheorems.ReservedWithinQuotaExactly | backend/app/api/routes/uploads.py:230-262 | A reservation is granted iff its size is within the limit and the sum with it is within the quota. |
| StorageTheorems.GivenUpKeysAreEnqueued | backend/app/api/routes/uploads.py:202-223 | Whenever the last reference to a key disappears, its deletion is pending. |
| StorageTheorems.KnownContentIsAbsorbed | backend/app/api/routes/uploads.py:404-438 | An upload is absorbed iff another document of its workspace has the content, and only by such a one, which then has an original again; otherwise it becomes an original. |
| StorageTheorems.FreshUploadsAreClaimable | backend/app/api/routes/uploads.py:440-471 | Fresh content becomes an available original with its hash and a run of the given configuration that anybody can claim at once. |
| StorageTheorems.StorageInvAlways | backend/app/models/entities.py:198-204 | In every reachable state keys are issued and unshared, contents are unique per workspace, the outbox is unclaimed and the quota holds. |
| StorageTheorems.OutboxNeverReferenced | backend/app/services/object_deletion.py:12-44 | No key awaiting deletion is referenced by a document, nor the pair of a pending upload's key. |
| ObjectTheorems.OriginalsKeptExactly | backend/app/api/routes/uploads.py:479-485 | A storage event keeps all available originals stored iff it is not a compensating delete of a key a document references. |
| ObjectTheorems.OrphansExactly | backend/app/api/routes/uploads.py:202-223 | An event keeps every final object referenced, enqueued or paired with a pending upload iff it does not drop a pending upload without its already written pair. |
| ObjectTheorems.AvailableOriginalsExist | backend/app/api/routes/uploads.py:440-471 | Along every history in which no completion commits a key that an aborted one is still to delete, every available original's object exists with its content; compensations may fail and uploads may be rejected at any time. |
| ObjectTheorems.NoObjectIsOrphaned | backend/app/api/routes/uploads.py:202-223 | Along every history in which no pending upload is dropped without the final object already written for it, no final object is an orphan, whether or not compensating deletes succeed. |
| ObjectTheorems.LateCompensationLosesTheOriginal | backend/app/api/routes/uploads.py:473-485 | Two completions of one upload, the first aborted and compensated last, lose a committed original. |
| ObjectTheorems.SwallowedErrorLeavesAnOrphan | backend/app/api/routes/uploads.py:479-485 | A swallowed storage error followed by a rejection leaves an object nobody accounts for. |
| ObjectKeys.PermanentKeysAreInjective | backend/app/services/object_keys.py:5-12 | Two incoming keys never share a final key, and no final key is an incoming key. |
| UploadVerification.VerifyUpload | backend/app/services/upload_verification.py:36-82 | Accepts exactly the objects with the reserved size, type and signature, and reports size and hash of the very bytes read. |
| UploadVerification.SignaturesTellTypesApart | backend/app/services/upload_verification.py:27-33 | No body has the signatures of two accepted types. |
| TextNormalization.OutputIsNormalized | backend/app/services/generic_extraction.py:34-39 | Normalized text has no literal escapes, no control characters but newline and tab, and no untrimmed line; what the text keeps is in the rows of `NormalizationTheorems`. |
| TextNormalization.FixedPointsAreNormalized | backend/app/services/generic_extraction.py:34-39 | Normalization leaves a text alone iff it has that form. |
| TextNormalization.NormalizeIsIdempotent | backend/app/services/generic_extraction.py:25-39 | Normalizing twice is normalizing once, on every string. |
| NormalizationTheorems.EscapesBreakLines | backend/app/services/generic_extraction.py:25-36 | Wherever it stands, a literal sequence normalizes as a line feed in its place; only a backslash-n right after a literal backslash-r does not count again. |
| NormalizationTheorems.ControlsAreReplaced | backend/app/services/generic_extraction.py:23-38 | Wherever it stands, a C1 control normalizes as a hyphen, and any other control but tab and the line breaks as a blank. |
| NormalizationTheorems.ContentIsKept | backend/app/services/generic_extraction.py:34-39 | The non-white-space characters of the result are, in order, those of the text once literal sequences and controls are taken for what they stand for. |
| NormalizationTheorems.LinesAreTrimmed | backend/app/services/generic_extraction.py:39 | For any lines and any breaks between them, CR LF being one, the result is the trimmed lines with line feeds between them, without the white space around the whole. |
| RuleTheorems.PageNumbersExactly | backend/app/services/generic_extraction.py:53-54 | A folded text is a page number iff it is the word and a number, perhaps out of another number. |
| RuleTheorems.NoticesExactly | backend/app/services/generic_extraction.py:48-52 | A folded text is a generated notice iff it is one of sixteen texts: two optional articles, hyphen or blank, optional full stop. |
| RuleTheorems.BoilerplateExactly | backend/app/services/generic_extraction.py:42-60 | A text is boilerplate iff nothing is left of it, or it is, folded, a test notice, a generated notice or a page number, or its lines say that something is continued. |
| RuleTheorems.SuspiciousExactly | backend/app/services/generic_extraction.py:63-70 | A text is suspicious iff it has a replacement or control character, or less than a fifth of its five or more visible characters are letters or digits. |
| RuleTheorems.SameFieldsExactly | backend/app/services/generic_extraction.py:78-88 | Two fields are duplicates iff their names and values agree but for case and the white space around them. |
| TextRules.BoilerplateIgnoresArtifacts | backend/app/services/generic_extraction.py:42-60 | Whether a text is boilerplate is the same before and after normalization. |
| QualityDetectors.DeterministicQualityCandidates | backend/app/services/generic_extraction.py:73-119 | The loops over a draft collect, in order and cut at 200, the specified findings named by path. |
| QualityDetectors.DeterministicQualityIssues | backend/app/services/generic_extraction.py:126-170 | The loops over a document collect, in order and cut at 200, the specified findings named by id. |
| DetectorTheorems.IssuesAreTheFlagged | backend/app/services/generic_extraction.py:126-170 | The findings over a document are exactly the flagged slots of it, each with its id, code and message, in the order of the slots. |
| DetectorTheorems.CandidatesAreTheFlagged | backend/app/services/generic_extraction.py:73-119 | The findings over a draft are exactly the flagged slots of it, each with its path, code and message, in the same order. |
| DetectorTheorems.SlotsAreExact | backend/app/services/generic_extraction.py:126-170 | The slots are every text of the document, and every field as a possible duplicate: fields first, then text blocks, then cells row by row. |
| QualityDetectors.PathNamesItsPosition | backend/app/services/generic_extraction.py:187-198 | The path written for a field, block or cell resolves to exactly that observation. |
| PathTheorems.ValuePathsAreExact | backend/app/services/generic_extraction.py:27-29 | A path names a field, block or cell iff it is spelled for it, leading zeros allowed, and the document has it. |
| PathTheorems.PresentationPathsAreExact | backend/app/services/generic_extraction.py:30-289 | A drafted path names the field, table or block it is spelled for, if the document has it, and every other path names nothing. |
| ObservationIds.IdsAreDistinct | backend/app/services/generic_extraction.py:201-250 | No two of the generated field, table, row, cell and block ids coincide within four digits. |
| Extraction.FinalizeExtraction | backend/app/services/generic_extraction.py:201-275 | Builds the finished document or fails as `FailsAtTheFirst` says, and keeps the first 200 of the issues described by `SettledInOrder`. |
| Extraction.FinishesExactly | backend/app/services/generic_extraction.py:207-257 | Finishing is converting every observation in its place: it succeeds with exactly the converted document, or fails. |
| FinishTheorems.FinishedDocumentIsExact | backend/app/services/generic_extraction.py:173-257 | It succeeds with exactly the document that keeps every page, the regions within their page, all texts normalized, titles unless empty, each table's pages once in order, and an id for every part. |
| FinishTheorems.FailsAtTheFirst | backend/app/services/generic_extraction.py:178-257 | The failure is that of the first offending observation, fields before tables before blocks, a page outside before an empty text; there is none iff nothing offends. |
| FinishTheorems.SettledInOrder | backend/app/services/generic_extraction.py:258-275 | The issues are exactly the candidates that name something, the first of each observation and code, in order and with their own message and suggestion. |
| FinishTheorems.IdsCountFromOne | backend/app/services/generic_extraction.py:207-250 | Ids are the name of the kind and the position counted from one, in at least four digits. |
| ExtractionTheorems.FinishedIdsAreUnique | backend/app/schemas/extraction.py:77-123 | For every draft within the schema, all ids of the finished document are pairwise distinct. |
| ExtractionTheorems.IssuesAreLiveAndDistinct | backend/app/services/generic_extraction.py:258-275 | Whatever a model review proposes, no (target, code) is repeated and every issue names an observation. |
| DetectorTheorems.DetectorsAgreeExactly | backend/app/services/generic_extraction.py:73-170 | For every accepted draft without model review, the resolved and deduplicated path findings are the id findings, in order and after truncation, iff up to the draft's 200th finding every text and field is judged alike before and after normalization. |
| DetectorTheorems.DetectorsCanDisagree | backend/app/services/generic_extraction.py:63-70 | Under the rules of the code, an accepted draft with a control character in a value is stored with an issue that the detector does not report on the finished document. |
| Presentation.TargetsAreTheObservations | backend/app/services/generic_extraction.py:292-306 | The ordered targets are exactly the ids of fields, tables and blocks, each once when ids are unique. |
| SectionTheorems.TargetsAreInOrder | backend/app/services/generic_extraction.py:292-306 | They run through the pages, and on each through fields, tables and blocks in their own order; a table is on its first page. |
| Presentation.FinalizePresentation | backend/app/services/generic_extraction.py:309-345 | The loops over drafted sections and paths build the presentation that `SectionsFollowTheDraft` describes. |
| SectionTheorems.SectionsFollowTheDraft | backend/app/services/generic_extraction.py:309-345 | Each drafted section that names something first becomes a section, in order, under its trimmed or the stock title, with what it names first, once each and in the order of its paths; what none names is in a last section, in document order; no other section and no exclusion. |
| PresentationTheorems.FinishedPresentationsCover | backend/app/services/generic_extraction.py:309-345 | For every draft, the finished sections list every observation exactly once and none is empty. |
| Presentation.RemoveNonAccountingBoilerplate | backend/app/services/generic_extraction.py:348-386 | Removes the boilerplate blocks and their ids from document, sections, exclusions and issues, as specified. |
| PresentationTheorems.RemovalIsSound | backend/app/services/generic_extraction.py:348-386 | Removal keeps unique ids, the exact cover and live issues, and leaves no boilerplate block. |
| SectionTheorems.RemovalIsExact | backend/app/services/generic_extraction.py:348-386 | Removal takes away exactly the boilerplate blocks, wherever they are named, and leaves all else as it was and in order. |
| Presentation.CoerceStoredPresentation | backend/app/services/generic_extraction.py:389-438 | The loops read a stored presentation back as specified, for absent, invalid and valid data, and fail when a 102nd section would be needed. |
| SectionTheorems.ReadingFollowsStorage | backend/app/services/generic_extraction.py:398-438 | What is read of a valid presentation: each stored section that lists an observation first, under its title and in its order, a last section in document order for what none lists, and the exclusions still observed. |
| SectionTheorems.UnreadableIsEmpty | backend/app/services/generic_extraction.py:393-438 | Absent and invalid data are read as one section of the whole document, in document order. |
| PresentationStorage.StoredCoversAreReadBack | backend/app/services/generic_extraction.py:389-438 | Reading back a valid exact cover changes nothing but the section numbers. |
| PresentationStorage.SettledAreFixed | backend/app/services/generic_extraction.py:398-415 | The presentations that reading back leaves alone are exactly the valid, numbered, complete ones whose sections share no target. |
| PresentationStorage.ReadingIsIdempotent | backend/app/services/generic_extraction.py:389-438 | Whatever is stored, what can be read is read again as the same. |
| PresentationStorage.ReadingFailsExactly | backend/app/schemas/extraction.py:132-141 | Reading fails iff the stored presentation is valid and its sections contribute 101 that leave an observation out. |
| PresentationStorage.ReadingCoversExactly | backend/app/services/generic_extraction.py:402-407 | What is read is an exact cover iff no section read from storage repeats inside itself an observation it is the first to name. |
| PresentationStorage.RepeatedObservationsStay | backend/app/services/generic_extraction.py:402-415 | A valid stored section that names an observation twice is read back as it is, and covers nothing exactly. |
| TallyExport.BuildReviewedDocument | backend/app/services/tally_export.py:14-58 | The loops over sections and targets build the document that `SectionsAreExportedInOrder` and `ExportConserves` describe. |
| HandoffTheorems.SectionsAreExportedInOrder | backend/app/services/tally_export.py:18-58 | The document's type, and the presented sections in order, each under its title with its fields, tables and texts in the order of its targets: labels and values, headers, every cell in its place, and titles unless empty; only sections with nothing to show are left out. |
| TallyExport.SectionsExportTheirTargets | backend/app/services/tally_export.py:23-57 | Each section exports exactly the items of its own observed, non-excluded targets, and is skipped iff there are none. |
| TallyExport.ExportConserves | backend/app/services/tally_export.py:14-58 | The whole export holds exactly one item for each listed, observed and non-excluded target, as often as it is listed, and each item shows all of its observation: a table its headers, cells and title. |
| TallyExport.ExportCount | backend/app/services/tally_export.py:18-57 | From an exact cover, the number of exported items is the number of observations minus the excluded ones. |
| Decimal.ParseRender | backend/app/services/corrections.py:33-39 | Rendered indices parse back and have no leading zero. |
| Corrections.DecodeToken | backend/app/services/corrections.py:11-24 | The single pass accepts exactly the well-formed tokens and decodes them as the two-pass rule does. |
| Corrections.SinglePassIsTwoPass | backend/app/services/corrections.py:11-24 | On every well-formed token the single pass equals first `~1`, then `~0` (section 4 of RFC 6901); on any other it fails. |
| Corrections.PointerRoundTrip | backend/app/services/corrections.py:27-30 | A pointer made of plain tokens is read back as those tokens. |
| Corrections.JsonDocument.ReplacePointer | backend/app/services/corrections.py:42-67 | Answers what the pointer resolves to and replaces exactly that; any error changes nothing. |
| Corrections.ReplaceIsLocal | backend/app/services/corrections.py:42-67 | Every location neither above nor below the written one reads as before. |
| Corrections.IndicesAreNumerals | backend/app/services/corrections.py:33-39 | A token is a list index iff it is the numeral of one; a larger numeral is out of bounds, anything else invalid. |
| Corrections.LookupFailsAtTheFirst | backend/app/services/corrections.py:42-67 | A pointer fails where its first step does, for the reason there: a missing member, a bad index, a scalar. |
| Corrections.ReplaceAndRestore | backend/app/services/corrections.py:55-66 | The new value is found where it was written, and writing the previous value back restores the whole tree. |
| Corrections.ApplyCorrections | backend/app/services/corrections.py:70-77 | Replays the log over a copy, succeeding iff every pointer resolves at its turn. |
| Corrections.ReplayAppends | backend/app/api/routes/results.py:222-243 | Updating the effective data step by step is replaying existing plus new corrections over the canonical data. |
| Corrections.LogIsReversible | backend/app/api/routes/results.py:232-241 | Writing the recorded previous values back in reverse order restores the canonical data exactly. |
| DocumentJson.DumpValidates | backend/app/schemas/extraction.py:93-123 | A dumped document validates, to itself, iff it is within the schema's bounds. |
| StoredExtraction.TargetValuePath | backend/app/services/generic_extraction.py:441-455 | The loops find the first value with the id and answer its pointer; an error iff no value has the id. |
| StoredExtractionTheorems.PointerReachesItsValue | backend/app/services/generic_extraction.py:441-455 | The pointer of a value resolves to it in the dumped document, and writing through it changes that value alone. |
| StoredExtractionTheorems.CorrectionReaches | backend/app/services/generic_extraction.py:502-530 | A correction addresses its own target iff, for a text block, no boilerplate block is stored before it. |
| StoredExtractionTheorems.CorrectionRoundTrip | backend/app/services/generic_extraction.py:441-530 | Without boilerplate, reading back after a correction gives the same document with that value alone replaced by its normalized form, iff the schema accepts the value and it is not boilerplate for a block. |
| StoredExtractionTheorems.ReadingBackIsIdentity | backend/app/services/generic_extraction.py:462-530 | Reading back what was read is the identity iff normalization blanked no field text and no table title. |
| ReadingTheorems.ReadingIsExact | backend/app/services/generic_extraction.py:462-530 | What is read keeps every id, page, region and row, normalizes every text, drops empty titles and exactly the boilerplate blocks. |
| StoredExtractionTheorems.BlankFieldIsRejected | backend/app/services/generic_extraction.py:462-530 | A valid document with a blank field value no longer validates once it is stored as read. |
| Pipeline.StoredResultIsSound | backend/app/workers/processor.py:274-285 | For every accepted draft, what is stored is valid, has unique ids, no boilerplate, a valid exact cover and live issues. |
| Pipeline.SoundResultsAreReadBack | backend/app/services/generic_extraction.py:389-530 | A sound stored result is read back whole; only section numbers change. |
| Review.ResultRow.ApplyResultCorrections | backend/app/api/routes/results.py:195-294 | Refuses approved, stale, unknown or invalid requests without a change; otherwise extends the log, rechecks the issues, reopens the review and adds one to the version. |
| Review.ResultRow.UpdateResultSelection | backend/app/api/routes/results.py:297-379 | Refuses unknown or total exclusions, changes nothing for the same selection, otherwise stores it in section order and adds one to the version. |
| ReviewTheorems.SelectionIsExact | backend/app/api/routes/results.py:329-355 | An accepted selection excludes exactly the requested targets, never all there are, in section order, and leaves the sections alone. |
| Review.ResultRow.ReviewResult | backend/app/api/routes/results.py:382-431 | Changes the status and the version under the expected version, or nothing for the same status. |
| Review.ResultRow.ExportResult | backend/app/api/routes/exports.py:60-107 | Exports the replayed, coerced, reviewed content of an approved row of the expected version; nothing changes. |
| ReviewTheorems.ContentFollowsVersion | backend/app/api/routes/results.py:269-273 | Over every history, equal versions at any two times show the same content, selection and status. |
| ReviewTheorems.OneWinnerPerVersion | backend/app/api/routes/results.py:211-220 | Of two mutations that expect the same version, at most one takes effect. |
| ReviewTheorems.ExportsAreFrozen | backend/app/api/routes/exports.py:60-107 | Any export at version v comes after an approval that produced v and uses exactly the content then in force; all exports at v are equal. |
| ReviewTheorems.LogIsAlwaysReversible | backend/app/api/routes/results.py:222-243 | Over every history the canonical data is untouched, the log only grows and replays, and undoing it restores the canonical data. |
| ReviewTheorems.IssuesFollowCorrections | backend/app/api/routes/results.py:248-268 | After a correction, the model's issues with untouched observations are kept in order, followed by what the detectors find in the corrected document, two hundred at most. |
| ReviewTheorems.VerdictsTakeEffect | backend/app/api/routes/results.py:382-431 | A verdict takes effect iff it names the current version, and never touches the content. |
| ReviewTheorems.ApproverIsOnRecord | backend/app/api/routes/results.py:269-271 | Over every history somebody is on record for the result exactly while it is approved. |
| CorrectionTheorems.CorrectionsLand | backend/app/api/routes/results.py:222-273 | What any request does to any valid data, boilerplate included: the changes land where the normalized document shows their targets; unprocessable iff a target is not shown, unreadable iff the schema rejects the result, else done; a refused request changes nothing. |
| CorrectionTheorems.CorrectionSucceedsExactly | backend/app/api/routes/results.py:222-273 | On sound data a request succeeds iff every target names a value and the schema accepts the changed document, which is then the effective data. |
| CorrectionTheorems.CorrectionsTakeEffect | backend/app/api/routes/results.py:222-273 | A request of acceptable changes succeeds, changes exactly the named values, and leaves data for which the same holds again. |
| CorrectionTheorems.MisdirectedCorrection | backend/app/services/generic_extraction.py:502-530 | From every sound result, blanking block i and then correcting a later block j are both accepted, and leave the new text in the block before j and the old text in j. |
| ExportTheorems.SelectionIsReadBack | backend/app/api/routes/results.py:346-360 | An accepted selection is read back as stored iff the sections list no excluded target twice. |
| ExportTheorems.RepeatedExclusionIsForgotten | backend/app/schemas/extraction.py:136-141 | Excluding an observation that its section lists twice is accepted, and nothing is excluded at the next reading. |
| ExportTheorems.SelectionAcceptedExactly | backend/app/api/routes/results.py:329-345 | Whatever has been corrected since, a selection of a stored result is accepted iff it names only observations and leaves at least one. |
| ExportTheorems.SelectedAreLeftOut | backend/app/api/routes/results.py:297-379 | Selecting what to leave out, approving and exporting, whatever has been corrected before: every item is exported once for each observation outside the selection that it shows. |
| ExportTheorems.EveryExportHoldsTheRest | backend/app/api/routes/exports.py:60-107 | For every accepted draft and every history of requests, refused and blanking corrections included, the effective data stays a valid document with the stored ids; an export succeeds iff the row is approved at the named version; it holds every item once for each non-excluded observation of the effective document that it shows, in the sections and the order of the presentation as read. |
| Idempotency.Records.LookUp | backend/app/core/idempotency.py:113-142 | Drops what expired and answers from a live record, or goes on to insert, or to take over the stale record it has read. |
| Idempotency.Records.TakeOver | backend/app/core/idempotency.py:126-131 | Deletes the record read as stale by its id, whatever it has become, together with what expired. |
| Idempotency.Records.Insert | backend/app/core/idempotency.py:144-157 | Inserts together with the pending deletions, or rolls both back on the unique key. |
| Idempotency.Records.Release | backend/app/core/idempotency.py:159-167 | A raising handler deletes exactly its own record, by id. |
| Idempotency.Records.Finish | backend/app/core/idempotency.py:193-207 | Stores a finished, replayable response under the record's id, frees the key otherwise, and does nothing once the record is gone. |
| Idempotency.ReadBoundedBody | backend/app/core/idempotency.py:35-51 | Answers the whole body iff neither its declared nor its actual length exceeds the limit. |
| Idempotency.StreamBody | backend/app/core/idempotency.py:175-190 | Passes every chunk on and keeps the body iff status and size make it replayable. |
| IdempotencyProtocol.LossesAreJustified | backend/app/core/idempotency.py:113-167 | A record disappears only by expiry, by a takeover that read it as stale under its own key, or by its owner's failure. |
| IdempotencyProtocol.OwnersTouchOnlyTheirRecord | backend/app/core/idempotency.py:193-207 | A late finalizer or failing handler touches no other record, and none once its own is lost. |
| IdempotencyProtocol.SecondExecutionNeedsALoss | backend/app/core/idempotency.py:144-167 | In every interleaving, a second execution of one key starts only after the first one's record was lost for one of those reasons. |
| IdempotencyProtocol.EqualRequestsAreReplayed | backend/app/core/idempotency.py:132-142 | Until expiry, and unless a request had read the record as stale before its response was stored, equal requests get exactly the stored status and body, and different bodies a conflict. |
| IdempotencyProtocol.LateTakeoversLoseNothing | backend/app/core/idempotency.py:126-131 | If the takeover age is at least the time to live, every stored response is kept until it expires, along every run. |
| IdempotencyProtocol.EarlyTakeoverLosesAResponse | backend/app/core/idempotency.py:126-131 | If it is shorter, a run loses a stored response before its expiry: read as stale, then finished, then deleted. |
| IdempotencyProtocol.RunningRequestsBlock | backend/app/core/idempotency.py:134-137 | While the first request runs and is not stale, equal requests are told so and different ones conflict. |
| IdempotencyProtocol.FreeKeysExecute | backend/app/core/idempotency.py:113-157 | A request whose key has only expired records, or an unfinished one old enough to be taken over, is executed unless another gets in its way, under a fresh record of its own with the configured time to live. |
| Paging.ListDocuments | backend/app/api/routes/documents.py:163-203 | Fetching one row more than the limit yields the first page of the listing, full and with the cursor of its last entry iff there is more. |
| Paging.PagesAreFull | backend/app/api/routes/documents.py:155-203 | A page is full unless it is the last, and holds the newest documents past its cursor. |
| Paging.ListingIsComplete | backend/app/api/routes/documents.py:155-171 | Following the cursors ends, and the pages together are the filtered documents in strictly descending order, each once, for any page size. |
| Paging.WalkNeitherSkipsNorRepeats | backend/app/api/routes/documents.py:155-203 | However the table changes between pages, nothing is listed twice and a finished walk misses nothing that was there throughout. |

## Left out

- HTTP, sessions, authorization, roles, CSRF, audit events, logging: the guards above start where a handler has the row.
- Model calls, graphs, rendering and preprocessing: outcomes of a step (extracted, blocked, rate-limited, cancelled, failed).
- `progress_stage`, page counts, token counts, costs and `updated_at`: columns no guard reads.
- Row-lock waiting and `skip_locked` starvation: locked rows are a parameter; transactions that lock what they read are atomic, and the one that does not (the idempotency lookup) is split where it matters.
- Outbox rows of one transaction are taken in the order in which they were enqueued; their attempt counts are not kept.
- The document comparison endpoint creates runs as `CreateProcessingRun` does; its counters are not modelled.
- The legacy invoice branch of `coerce_stored_extraction`: only the generic branch is read.
- Lax coercions of the schema library (a numeral string for a number, say): JSON values must have the declared type.
- `str.isdigit`, `casefold`, `isalnum`, `isupper`: digits are ASCII, the others are parameters (`TextRules.Unicode`), and everything beyond `TextRules` is proved for any rules.
- `int` limits on the number of digits, and the length limits of paths: indices are unbounded.
- Section ids are kept as numbers; the id is `section-` and the number in four digits.
- The fixed texts of quality messages: they are constructors of one datatype.
- Time zones, ISO formats and the base64 form of cursors: a cursor is the pair it encodes.
- Replayed response headers: a stored response is its status and body.
- Review sections for display (`_response`) and its path-to-target map.
- Corrections are ordered as they were added; clocks that run backwards between requests are not part of this model.
- Corrections.JsonDocument.ReplacePointer: the tree is a value held in a field, so aliasing between subtrees is not captured.
- Review.ResultRow.ApplyResultCorrections: data that the schema or the log rejects is one outcome (`Unreadable`), although the server answers it as an internal error.
- Review.ResultRow.ExportResult: readings of stored data are passed in as functions; `StandardReading` holds the ones proved elsewhere.
- IdempotencyProtocol.SecondExecutionNeedsALoss: requests that are not gated (no key, no session, bad origin) bypass the records and are not steps.
- ObjectTheorems.AvailableOriginalsExist: assumes that no completion commits a final key that an earlier, aborted completion is still to delete; the exact condition without that assumption is `OriginalsKeptExactly`.
- ObjectTheorems.NoObjectIsOrphaned: assumes that no pending upload is dropped without the final object an aborted completion has already written for it; the exact condition is `OrphansExactly`.
- IdempotencyProtocol.EqualRequestsAreReplayed: assumes that no request has read the record as stale before its response was stored; when that cannot happen, and that it can happen otherwise, is in `LateTakeoversLoseNothing` and `EarlyTakeoverLosesAResponse`.
- Extraction.FinalizeExtraction: image files are their sizes.
