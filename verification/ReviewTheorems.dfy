/** Frozen approval, versions that determine content, and a log that can always be undone: over every history. */
module ReviewTheorems {
  import opened Wrappers
  import opened Corrections
  import opened TextRules
  import opened QualityDetectors
  import opened Sequences
  import opened Presentation
  import opened StoredExtraction
  import opened Review

  // ---------- versions ----------

  /** What a correction, a selection or an export reads. */
  predicate SameContent(a: Record, b: Record) {
    a.canonical == b.canonical && a.log == b.log && a.presentation == b.presentation && a.issues == b.issues
  }

  /** One request changes nothing, or it names the current version, finds no approval to protect, and adds one. */
  lemma OneStep(reading: Reading, row: Record, request: Request)
    ensures var next := Handle(reading, row, request).0;
            && next.canonical == row.canonical
            && (next == row || (next.version == row.version + 1 && request.expected == row.version))
            && (!SameContent(next, row) ==> !row.status.Approved? && next.status.InReview?)
            && (next != row && next.status.Approved? ==>
                  request.Judge? && request.verdict.Approved? && SameContent(next, row))
  {
  }

  lemma {:induction false} VersionsGrow(reading: Reading, row: Record, requests: seq<Request>, i: nat, j: nat)
    requires i <= j <= |requests|
    ensures At(reading, row, requests, i).version <= At(reading, row, requests, j).version
    ensures At(reading, row, requests, i).version == At(reading, row, requests, j).version ==>
              At(reading, row, requests, i) == At(reading, row, requests, j)
    ensures At(reading, row, requests, i).canonical == At(reading, row, requests, j).canonical
  {
    if i < j {
      VersionsGrow(reading, row, requests, i, j - 1);
      OneStep(reading, At(reading, row, requests, j - 1), requests[j - 1]);
    }
  }

  /** What every request keeps holds along every history. */
  lemma {:induction false} RequestsKeep(
    reading: Reading, row: Record, requests: seq<Request>, n: nat, inv: Record -> bool)
    requires n <= |requests| && inv(row)
    requires forall i, r :: 0 <= i < |requests| && inv(r) ==> inv(Handle(reading, r, requests[i]).0)
    ensures inv(At(reading, row, requests, n))
  {
    if n > 0 {
      RequestsKeep(reading, row, requests, n - 1, inv);
    }
  }

  /** The version determines the whole row: equal versions, at whatever times, show equal content. */
  lemma ContentFollowsVersion(reading: Reading, row: Record, requests: seq<Request>, i: nat, j: nat)
    requires i <= |requests| && j <= |requests|
    requires At(reading, row, requests, i).version == At(reading, row, requests, j).version
    ensures At(reading, row, requests, i) == At(reading, row, requests, j)
  {
    if i <= j {
      VersionsGrow(reading, row, requests, i, j);
    } else {
      VersionsGrow(reading, row, requests, j, i);
    }
  }

  lemma EffectNamesVersion(reading: Reading, row: Record, requests: seq<Request>, i: nat)
    requires i < |requests| && At(reading, row, requests, i + 1) != At(reading, row, requests, i)
    ensures requests[i].expected == At(reading, row, requests, i).version
    ensures At(reading, row, requests, i + 1).version == At(reading, row, requests, i).version + 1
  {
    OneStep(reading, At(reading, row, requests, i), requests[i]);
  }

  /** Of two requests that name the same version, at most one takes effect. */
  lemma OneWinnerPerVersion(reading: Reading, row: Record, requests: seq<Request>, i: nat, j: nat)
    requires i < j < |requests| && requests[i].expected == requests[j].expected
    requires At(reading, row, requests, i + 1) != At(reading, row, requests, i)
    ensures At(reading, row, requests, j + 1) == At(reading, row, requests, j)
  {
    LaterVersionsAreHigher(reading, row, requests, i, j);
    NoEffectUnlessNamed(reading, row, requests, j);
  }

  lemma LaterVersionsAreHigher(reading: Reading, row: Record, requests: seq<Request>, i: nat, j: nat)
    requires i < j < |requests| && At(reading, row, requests, i + 1) != At(reading, row, requests, i)
    ensures requests[i].expected < At(reading, row, requests, j).version
  {
    EffectNamesVersion(reading, row, requests, i);
    VersionsGrow(reading, row, requests, i + 1, j);
  }

  lemma NoEffectUnlessNamed(reading: Reading, row: Record, requests: seq<Request>, j: nat)
    requires j < |requests| && requests[j].expected != At(reading, row, requests, j).version
    ensures At(reading, row, requests, j + 1) == At(reading, row, requests, j)
  {
    StaleIsRefused(reading, At(reading, row, requests, j), requests[j]);
  }

  lemma StaleIsRefused(reading: Reading, row: Record, request: Request)
    requires request.expected != row.version
    ensures Handle(reading, row, request).0 == row
  {
  }

  // ---------- frozen approval ----------

  /** Request i approved the result and thereby produced version v, leaving the content as it was. */
  predicate Approves(reading: Reading, row: Record, requests: seq<Request>, i: nat, v: nat)
    requires i < |requests|
  {
    var before, after := At(reading, row, requests, i), At(reading, row, requests, i + 1);
    && requests[i].Judge? && requests[i].verdict.Approved? && requests[i].expected == before.version
    && after.version == v && v == before.version + 1
    && after.status.Approved? && after.reviewedBy == Some(requests[i].user)
    && SameContent(before, after)
  }

  lemma {:induction false} ApprovedWasApproved(reading: Reading, row: Record, requests: seq<Request>, j: nat)
    returns (i: nat)
    requires j <= |requests| && !row.status.Approved? && At(reading, row, requests, j).status.Approved?
    ensures i < j && Approves(reading, row, requests, i, At(reading, row, requests, j).version)
    ensures At(reading, row, requests, i + 1) == At(reading, row, requests, j)
  {
    var before := At(reading, row, requests, j - 1);
    OneStep(reading, before, requests[j - 1]);
    if At(reading, row, requests, j) == before {
      i := ApprovedWasApproved(reading, row, requests, j - 1);
    } else {
      i := j - 1;
    }
  }

  /**
   Every export at version v comes after an approval that produced v, and is computed from exactly the content in
   force at that approval; any two exports that succeed at v are the same.
   */
  lemma ExportsAreFrozen(reading: Reading, row: Record, requests: seq<Request>, j: nat, v: nat) returns (i: nat)
    requires j <= |requests| && !row.status.Approved?
    requires Exported(reading, At(reading, row, requests, j), v).Ok?
    ensures i < j && Approves(reading, row, requests, i, v)
    ensures Exported(reading, At(reading, row, requests, j), v) == ExportOf(reading, At(reading, row, requests, i + 1))
    ensures forall k :: 0 <= k <= |requests| && Exported(reading, At(reading, row, requests, k), v).Ok? ==>
              Exported(reading, At(reading, row, requests, k), v) == Exported(reading, At(reading, row, requests, j), v)
  {
    i := ApprovedWasApproved(reading, row, requests, j);
    forall k | 0 <= k <= |requests| && Exported(reading, At(reading, row, requests, k), v).Ok?
      ensures Exported(reading, At(reading, row, requests, k), v) == Exported(reading, At(reading, row, requests, j), v)
    {
      ContentFollowsVersion(reading, row, requests, k, j);
    }
  }

  /** A verdict takes effect exactly under the current version, whatever the status was; it never touches the content. */
  lemma VerdictsTakeEffect(row: Record, expected: nat, verdict: ReviewStatus, user: UserId)
    ensures var (next, outcome) := Judged(row, expected, verdict, user);
            && outcome == (if expected == row.version then Done else Conflict)
            && (outcome == Done ==> next.status == verdict && SameContent(row, next))
            && (outcome == Conflict ==> next == row)
            && (next != row <==> outcome == Done && row.status != verdict)
  {
  }

  /** Along every history, somebody is on record for the result exactly while it is approved. */
  lemma ApproverIsOnRecord(reading: Reading, row: Record, requests: seq<Request>, n: nat)
    requires n <= |requests| && (row.reviewedBy.Some? <==> row.status.Approved?)
    ensures var now := At(reading, row, requests, n); now.reviewedBy.Some? <==> now.status.Approved?
  {
    RequestsKeep(reading, row, requests, n, (r: Record) => r.reviewedBy.Some? <==> r.status.Approved?);
  }

  // ---------- quality issues ----------

  /** What a reviewing model reported about an observation that no change touches. */
  predicate Survives(changes: seq<Change>, issue: Issue) {
    issue.code in {PossibleOcrError, IllegibleText} && forall change :: change in changes ==> change.target != issue.target
  }

  /**
   After a correction, the model's issues with untouched observations are kept, in order, followed by what the detectors
   find in the corrected document; at most two hundred in all.
   */
  lemma IssuesFollowCorrections(reading: Reading, row: Record, expected: nat, changes: seq<Change>)
    requires Corrected(reading, row, expected, changes).1 == Done
    ensures var next := Corrected(reading, row, expected, changes).0;
            && Replayable(next.canonical, next.log) && reading.coerce(Replay(next.canonical, next.log)).Some?
            && var found := reading.recheck(reading.coerce(Replay(next.canonical, next.log)).value);
            && next.issues == Truncate(Keep(row.issues, issue => Survives(changes, issue)) + found)
            && (|next.issues| < 200 ==>
                  forall issue :: issue in next.issues <==>
                    (issue in row.issues && Survives(changes, issue)) || issue in found)
  {
    var next := Corrected(reading, row, expected, changes).0;
    var after := ReplayedCorrection(reading, row, expected, changes);
    KeepSame(row.issues, (issue: Issue) => Retained(changes, issue), issue => Survives(changes, issue));
    KeepMembers(row.issues, issue => Survives(changes, issue));
  }

  /** The detectors' issues after a correction are exactly those of the effective document. */
  lemma DetectorIssuesAreCurrent(rules: Rules, row: Record, expected: nat, changes: seq<Change>, issue: Issue)
    requires Corrected(StandardReading(rules), row, expected, changes).1 == Done
    requires issue.code.DuplicateObservation? || issue.code.PossibleGibberish?
    ensures var next := Corrected(StandardReading(rules), row, expected, changes).0;
            && Replayable(next.canonical, next.log) && Coerced(rules, Replay(next.canonical, next.log)).Some?
            && var found := Truncate(Issues(rules, Coerced(rules, Replay(next.canonical, next.log)).value));
            && (|next.issues| < 200 ==> (issue in next.issues <==> issue in found))
  {
    IssuesFollowCorrections(StandardReading(rules), row, expected, changes);
  }

  /** What a successful correction leaves: a log that replays to the data whose reading is checked for issues again. */
  lemma ReplayedCorrection(reading: Reading, row: Record, expected: nat, changes: seq<Change>) returns (after: Json)
    requires Corrected(reading, row, expected, changes).1 == Done
    ensures var next := Corrected(reading, row, expected, changes).0;
            && Replayable(next.canonical, next.log) && Replay(next.canonical, next.log) == after
            && reading.coerce(after).Some?
            && next.issues == Truncate(Keep(row.issues, (issue: Issue) => Retained(changes, issue))
                                       + reading.recheck(reading.coerce(after).value))
  {
    var effective := Replay(row.canonical, row.log);
    var doc := reading.coerce(effective).value;
    var pathFor := id => reading.pathFor(doc, id);
    PendingReplays(pathFor, effective, changes);
    var (result, pending) := Pending(pathFor, effective, changes).value;
    ReplayAppends(row.canonical, row.log, pending);
    after := result;
  }

  // ---------- selection ----------

  /**
   An accepted selection excludes exactly the requested targets, all of them known, never everything there is, and
   leaves the sections alone; it is stored in section order, or already was.
   */
  lemma SelectionIsExact(read: Presentation, excluded: seq<string>)
    requires SelectionEffect(read, excluded).Ok?
    ensures var stored := match SelectionEffect(read, excluded).value case None => read case Some(changed) => changed;
            && stored.sections == read.sections
            && stored.excluded == Keep(Targets(read.sections), id => id in ToSet(excluded))
            && ToSet(stored.excluded) == ToSet(excluded) <= ToSet(Targets(read.sections))
            && (Targets(read.sections) != [] ==> ToSet(excluded) != ToSet(Targets(read.sections)))
            && (NoDup(Targets(read.sections)) ==> NoDup(stored.excluded))
  {
    var targets := Targets(read.sections);
    KeepMembers(targets, id => id in ToSet(excluded));
    SetMembers(Keep(targets, id => id in ToSet(excluded)));
    SetMembers(targets);
    SetMembers(excluded);
    if targets != [] {
      assert targets[0] in ToSet(targets);
    }
  }

  // ---------- the log ----------

  predicate GoodLog(row: Record) {
    Replayable(row.canonical, row.log) && Faithful(row.canonical, row.log)
  }

  /** The entries of one request replay to the data it left, and remember what they replaced. */
  lemma {:induction false} PendingReplays(pathFor: string -> Option<string>, data: Json, changes: seq<Change>)
    requires Pending(pathFor, data, changes).Some?
    ensures var (after, pending) := Pending(pathFor, data, changes).value;
            && Replayable(data, pending) && Replay(data, pending) == after && Faithful(data, pending)
            && |pending| == |changes|
    decreases |changes|
  {
    if changes != [] {
      var path, value := pathFor(changes[0].target).value, String(changes[0].value);
      var next := ReplacedAt(data, path, value);
      PendingReplays(pathFor, next, changes[1..]);
      var (after, rest) := Pending(pathFor, next, changes[1..]).value;
      var pending := Pending(pathFor, data, changes).value.1;
      assert pending[1..] == rest;
    }
  }

  lemma LogStaysGood(reading: Reading, row: Record, request: Request)
    requires GoodLog(row)
    ensures GoodLog(Handle(reading, row, request).0) && row.log <= Handle(reading, row, request).0.log
  {
    var next := Handle(reading, row, request).0;
    if request.Correct? && next != row {
      var effective := Replay(row.canonical, row.log);
      var doc := reading.coerce(effective).value;
      PendingReplays(id => reading.pathFor(doc, id), effective, request.changes);
      var pending := Pending(id => reading.pathFor(doc, id), effective, request.changes).value.1;
      assert next.log == row.log + pending;
      ReplayAppends(row.canonical, row.log, pending);
    }
  }

  /**
   Along every history the canonical data is untouched, the log only grows, the effective data is the replay of the
   log, and writing the recorded previous values back in reverse order restores the canonical data.
   */
  lemma {:induction false} LogIsAlwaysReversible(reading: Reading, row: Record, requests: seq<Request>, n: nat)
    requires GoodLog(row) && n <= |requests|
    ensures var now := At(reading, row, requests, n);
            && GoodLog(now) && now.canonical == row.canonical && row.log <= now.log
            && Replayable(Replay(now.canonical, now.log), UndoAll(now.log))
            && Replay(Replay(now.canonical, now.log), UndoAll(now.log)) == row.canonical
  {
    if n > 0 {
      LogIsAlwaysReversible(reading, row, requests, n - 1);
      LogStaysGood(reading, At(reading, row, requests, n - 1), requests[n - 1]);
      OneStep(reading, At(reading, row, requests, n - 1), requests[n - 1]);
    }
    var now := At(reading, row, requests, n);
    LogIsReversible(now.canonical, now.log);
  }
}
