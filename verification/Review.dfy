/** One extraction result under review: corrections, selection for export, approval and export, guarded by a version. */
module Review {
  import opened Wrappers
  import opened Corrections
  import opened ExtractionSchema
  import opened TextRules
  import opened QualityDetectors
  import opened Sequences
  import opened Presentation
  import opened StoredExtraction
  import opened TallyExport

  type UserId = nat

  datatype ReviewStatus = Unreviewed | InReview | Approved

  datatype Record = Record(
    canonical: Json,
    log: seq<Correction>,
    presentation: StoredPresentation,
    issues: seq<Issue>,
    status: ReviewStatus,
    reviewedBy: Option<UserId>,
    version: nat)

  datatype Change = Change(target: string, value: string)

  /** A refused request changes nothing; `Unreadable` stands for data the schema or the log rejects. */
  datatype Outcome = Done | Conflict | Unprocessable | Unreadable

  /** The readings of stored data the handlers use: validation, pointers, sections, issues, export. */
  datatype Reading = Reading(
    coerce: Json -> Option<Document>,
    pathFor: (Document, string) -> Option<string>,
    present: (StoredPresentation, Document) -> Option<Presentation>,
    recheck: Document -> seq<Issue>,
    exported: (Document, Presentation) -> ReviewedDocument)

  function StandardReading(rules: Rules): Reading {
    Reading(
      data => Coerced(rules, data),
      (doc, id) => PathFor(doc, id),
      (stored, doc) => CoercedPresentation(stored, doc),
      doc => Truncate(Issues(rules, doc)),
      (doc, presentation) => ReviewedOf(doc, presentation))
  }

  // ---------- corrections ----------

  /** The changes of one request, applied in order through the pointers known before the first. */
  function Pending(pathFor: string -> Option<string>, data: Json, changes: seq<Change>): Option<(Json, seq<Correction>)>
    decreases |changes|
  {
    if changes == [] then Some((data, []))
    else
      match pathFor(changes[0].target)
      case None => None
      case Some(path) =>
        match Resolve(data, path)
        case Err(_) => None
        case Ok(previous) =>
          var value := String(changes[0].value);
          match Pending(pathFor, ReplacedAt(data, path, value), changes[1..])
          case None => None
          case Some((after, rest)) => Some((after, [Correction(path, previous, value)] + rest))
  }

  predicate Retained(changes: seq<Change>, issue: Issue) {
    && !issue.code.DuplicateObservation? && !issue.code.PossibleGibberish?
    && forall i :: 0 <= i < |changes| ==> changes[i].target != issue.target
  }

  /** The log entries and the issues that the changes lead to, over the effective data. */
  function CorrectionEffect(reading: Reading, issues: seq<Issue>, effective: Json, changes: seq<Change>)
    : Result<(seq<Correction>, seq<Issue>), Outcome>
  {
    match reading.coerce(effective)
    case None => Err(Unreadable)
    case Some(doc) =>
      match Pending(id => reading.pathFor(doc, id), effective, changes)
      case None => Err(Unprocessable)
      case Some((after, pending)) =>
        match reading.coerce(after)
        case None => Err(Unreadable)
        case Some(changed) =>
          Ok((pending, Truncate(Keep(issues, (issue: Issue) => Retained(changes, issue)) + reading.recheck(changed))))
  }

  function Corrected(reading: Reading, row: Record, expected: nat, changes: seq<Change>): (Record, Outcome) {
    if row.status.Approved? || row.version != expected then (row, Conflict)
    else if !Replayable(row.canonical, row.log) then (row, Unreadable)
    else
      match CorrectionEffect(reading, row.issues, Replay(row.canonical, row.log), changes)
      case Err(refusal) => (row, refusal)
      case Ok((pending, issues)) =>
        (row.(log := row.log + pending, issues := issues, status := InReview, reviewedBy := None, version := row.version + 1),
         Done)
  }

  // ---------- selection ----------

  /** The presentation with the new exclusions in section order, or nothing when they are the old ones. */
  function SelectionEffect(read: Presentation, excluded: seq<string>): Result<Option<Presentation>, Outcome> {
    var known, dropped := ToSet(Targets(read.sections)), ToSet(excluded);
    var ordered := Keep(Targets(read.sections), id => id in dropped);
    if !(dropped <= known) || (known != {} && dropped == known) then Err(Unprocessable)
    else if ordered == read.excluded then Ok(None)
    else Ok(Some(read.(excluded := ordered)))
  }

  function SelectionOver(reading: Reading, canonical: Json, stored: StoredPresentation, excluded: seq<string>)
    : Result<Option<Presentation>, Outcome>
  {
    match reading.coerce(canonical)
    case None => Err(Unreadable)
    case Some(doc) =>
      match reading.present(stored, doc)
      case None => Err(Unreadable)
      case Some(read) => SelectionEffect(read, excluded)
  }

  /** The guards of the handler around the effect of a selection. */
  function SelectionAnswer(row: Record, expected: nat, effect: Result<Option<Presentation>, Outcome>): (Record, Outcome) {
    if row.status.Approved? || row.version != expected then (row, Conflict)
    else
      match effect
      case Err(refusal) => (row, refusal)
      case Ok(None) => (row, Done)
      case Ok(Some(changed)) =>
        (row.(presentation := Stored(changed), status := InReview, reviewedBy := None, version := row.version + 1), Done)
  }

  function Selected(reading: Reading, row: Record, expected: nat, excluded: seq<string>): (Record, Outcome) {
    SelectionAnswer(row, expected, SelectionOver(reading, row.canonical, row.presentation, excluded))
  }

  // ---------- approval ----------

  function Judged(row: Record, expected: nat, status: ReviewStatus, user: UserId): (Record, Outcome) {
    if row.version != expected then (row, Conflict)
    else if row.status == status then (row, Done)
    else
      (row.(status := status, reviewedBy := if status.Approved? then Some(user) else None, version := row.version + 1), Done)
  }

  // ---------- export ----------

  datatype Export = Export(version: nat, document: ReviewedDocument, issues: seq<Issue>)

  /** What is exported from a row: a function of its version, canonical data, log, selection and issues. */
  function ExportOf(reading: Reading, row: Record): Result<Export, Outcome> {
    if !Replayable(row.canonical, row.log) then Err(Unreadable)
    else
      match reading.coerce(Replay(row.canonical, row.log))
      case None => Err(Conflict)
      case Some(doc) =>
        match reading.present(row.presentation, doc)
        case None => Err(Unreadable)
        case Some(read) => Ok(Export(row.version, reading.exported(doc, read), row.issues))
  }

  function Exported(reading: Reading, row: Record, expected: nat): Result<Export, Outcome> {
    if row.version != expected || !row.status.Approved? then Err(Conflict) else ExportOf(reading, row)
  }

  // ---------- the row the handlers lock ----------

  class ResultRow {
    var canonical: Json
    var log: seq<Correction>
    var presentation: StoredPresentation
    var issues: seq<Issue>
    var status: ReviewStatus
    var reviewedBy: Option<UserId>
    var version: nat

    /** The columns together. */
    ghost function Columns(): Record
      reads this
    {
      Record(canonical, log, presentation, issues, status, reviewedBy, version)
    }

    /** What completing a run inserts: unreviewed, version one, nothing corrected. */
    constructor (canonical: Json, presentation: StoredPresentation, issues: seq<Issue>)
      ensures Columns() == Record(canonical, [], presentation, issues, Unreviewed, None, 1)
    {
      this.canonical, this.presentation, this.issues := canonical, presentation, issues;
      log, status, reviewedBy, version := [], Unreviewed, None, 1;
    }

    method ApplyResultCorrections(reading: Reading, expected: nat, changes: seq<Change>) returns (outcome: Outcome)
      modifies this
      ensures (Columns(), outcome) == Corrected(reading, old(Columns()), expected, changes)
    {
      if status.Approved? || version != expected {
        return Conflict;
      }
      var effective := ApplyCorrections(canonical, log);
      if effective.Err? {
        return Unreadable;
      }
      var applied := ComputeCorrections(reading, issues, effective.value, changes);
      if applied.Err? {
        return applied.error;
      }
      log := log + applied.value.0;
      issues := applied.value.1;
      status := InReview;
      reviewedBy := None;
      version := version + 1;
      return Done;
    }

    method UpdateResultSelection(reading: Reading, expected: nat, excluded: seq<string>) returns (outcome: Outcome)
      modifies this
      ensures (Columns(), outcome) == Selected(reading, old(Columns()), expected, excluded)
    {
      if status.Approved? || version != expected {
        return Conflict;
      }
      var changed := ComputeSelection(reading, canonical, presentation, excluded);
      if changed.Err? {
        return changed.error;
      }
      if changed.value.None? {
        return Done;
      }
      presentation := Stored(changed.value.value);
      status := InReview;
      reviewedBy := None;
      version := version + 1;
      return Done;
    }

    method ReviewResult(expected: nat, requested: ReviewStatus, user: UserId) returns (outcome: Outcome)
      modifies this
      ensures (Columns(), outcome) == Judged(old(Columns()), expected, requested, user)
    {
      if version != expected {
        return Conflict;
      }
      if status == requested {
        return Done;
      }
      status := requested;
      reviewedBy := if requested.Approved? then Some(user) else None;
      version := version + 1;
      return Done;
    }

    /** Reads the locked row; nothing of it changes. */
    method ExportResult(reading: Reading, expected: nat) returns (r: Result<Export, Outcome>)
      ensures r == Exported(reading, Columns(), expected)
    {
      if version != expected || !status.Approved? {
        return Err(Conflict);
      }
      var effective := ApplyCorrections(canonical, log);
      if effective.Err? {
        return Err(Unreadable);
      }
      var doc := reading.coerce(effective.value);
      if doc.None? {
        return Err(Conflict);
      }
      var read := reading.present(presentation, doc.value);
      if read.None? {
        return Err(Unreadable);
      }
      var reviewed := reading.exported(doc.value, read.value);
      return Ok(Export(version, reviewed, issues));
    }
  }

  method ComputeCorrections(reading: Reading, issues: seq<Issue>, effective: Json, changes: seq<Change>)
    returns (r: Result<(seq<Correction>, seq<Issue>), Outcome>)
    ensures r == CorrectionEffect(reading, issues, effective, changes)
  {
    var read := reading.coerce(effective);
    if read.None? {
      return Err(Unreadable);
    }
    var applied := ApplyChanges(id => reading.pathFor(read.value, id), effective, changes);
    if applied.None? {
      return Err(Unprocessable);
    }
    var changed := reading.coerce(applied.value.0);
    if changed.None? {
      return Err(Unreadable);
    }
    var recomputed := reading.recheck(changed.value);
    var retained := Keep(issues, (issue: Issue) => Retained(changes, issue));
    return Ok((applied.value.1, Truncate(retained + recomputed)));
  }

  method ComputeSelection(reading: Reading, canonical: Json, stored: StoredPresentation, excluded: seq<string>)
    returns (r: Result<Option<Presentation>, Outcome>)
    ensures r == SelectionOver(reading, canonical, stored, excluded)
  {
    var extracted := reading.coerce(canonical);
    if extracted.None? {
      return Err(Unreadable);
    }
    var read := reading.present(stored, extracted.value);
    if read.None? {
      return Err(Unreadable);
    }
    return SelectionEffect(read.value, excluded);
  }

  /** The loop over the changes of one request. */
  method ApplyChanges(pathFor: string -> Option<string>, data: Json, changes: seq<Change>)
    returns (r: Option<(Json, seq<Correction>)>)
    ensures r == Pending(pathFor, data, changes)
  {
    var effective := new JsonDocument(data);
    var pending: seq<Correction> := [];
    NothingPending(Pending(pathFor, data, changes));
    assert changes[0..] == changes;
    for i := 0 to |changes|
      invariant fresh(effective)
      invariant Pending(pathFor, data, changes) == Continued(pending, Pending(pathFor, effective.root, changes[i..]))
    {
      var path := pathFor(changes[i].target);
      if path.None? {
        return None;
      }
      OneMorePending(pathFor, effective.root, changes, i, pending);
      var value := String(changes[i].value);
      var previous := effective.ReplacePointer(path.value, value);
      if previous.Err? {
        return None;
      }
      pending := pending + [Correction(path.value, previous.value, value)];
    }
    assert changes[|changes|..] == [] && pending + [] == pending;
    return Some((effective.root, pending));
  }

  function Continued(pending: seq<Correction>, rest: Option<(Json, seq<Correction>)>): Option<(Json, seq<Correction>)> {
    match rest case None => None case Some((after, more)) => Some((after, pending + more))
  }

  lemma NothingPending(rest: Option<(Json, seq<Correction>)>)
    ensures Continued([], rest) == rest
  {
    if rest.Some? {
      assert [] + rest.value.1 == rest.value.1;
    }
  }

  lemma OneMorePending(
      pathFor: string -> Option<string>, data: Json, changes: seq<Change>, i: nat, pending: seq<Correction>)
    requires i < |changes| && pathFor(changes[i].target).Some?
    ensures var path, value := pathFor(changes[i].target).value, String(changes[i].value);
            Continued(pending, Pending(pathFor, data, changes[i..])) ==
            match Resolve(data, path)
            case Err(_) => None
            case Ok(previous) =>
              Continued(pending + [Correction(path, previous, value)],
                        Pending(pathFor, ReplacedAt(data, path, value), changes[i + 1..]))
  {
    assert changes[i..][1..] == changes[i + 1..];
    var path, value := pathFor(changes[i].target).value, String(changes[i].value);
    var previous := Resolve(data, path);
    if previous.Ok? {
      var rest := Pending(pathFor, ReplacedAt(data, path, value), changes[i + 1..]);
      if rest.Some? {
        var c := Correction(path, previous.value, value);
        assert pending + ([c] + rest.value.1) == pending + [c] + rest.value.1;
      }
    }
  }

  // ---------- histories ----------

  datatype Request =
    | Correct(expected: nat, changes: seq<Change>)
    | Select(expected: nat, excluded: seq<string>)
    | Judge(expected: nat, verdict: ReviewStatus, user: UserId)

  function Handle(reading: Reading, row: Record, request: Request): (Record, Outcome) {
    match request
    case Correct(expected, changes) => Corrected(reading, row, expected, changes)
    case Select(expected, excluded) => Selected(reading, row, expected, excluded)
    case Judge(expected, verdict, user) => Judged(row, expected, verdict, user)
  }

  /** The row after the first n requests, in the order their locks are granted. */
  function At(reading: Reading, row: Record, requests: seq<Request>, n: nat): Record
    requires n <= |requests|
  {
    if n == 0 then row else Handle(reading, At(reading, row, requests, n - 1), requests[n - 1]).0
  }
}
