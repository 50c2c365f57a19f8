/** A correction request, from the handler's guards to the document that is read back. */
module CorrectionTheorems {
  import opened Wrappers
  import opened TextNormalization
  import opened Corrections
  import opened ExtractionSchema
  import opened TextRules
  import opened PresentationTheorems
  import opened DocumentJson
  import opened StoredExtraction
  import opened StoredExtractionTheorems
  import opened Review
  import opened ReviewTheorems

  /** The same observations with the same ids, whatever the values. */
  ghost predicate SameShape(a: Document, b: Document) {
    forall p :: (Has(a, p) <==> Has(b, p)) && (Has(a, p) ==> IdAt(a, p) == IdAt(b, p))
  }

  lemma ValuesDoNotShape(doc: Document, p: Position, v: string)
    requires Has(doc, p) && IsValue(p)
    ensures SameShape(doc, WithValue(doc, p, v))
  {
  }

  lemma SameShapeSameTargets(a: Document, b: Document, id: string)
    requires SameShape(a, b) && UniqueIds(a)
    ensures UniqueIds(b) && FirstValue(a, id) == FirstValue(b, id)
  {
    forall p, q | Has(b, p) && Has(b, q) && IdAt(b, p) == IdAt(b, q) ensures p == q {
      assert Has(a, p) && Has(a, q);
    }
    ValuesAreFound(a, id);
    ValuesAreFound(b, id);
    if FirstValue(a, id).Some? {
      var p := FirstValue(a, id).value;
      assert Has(b, p) && IdAt(b, p) == id;
      assert Has(a, FirstValue(b, id).value);
    }
  }

  // ---------- what any request does ----------

  /** Every target names a value of the document. */
  predicate Named(doc: Document, changes: seq<Change>) {
    forall c :: c in changes ==> FirstValue(doc, c.target).Some?
  }

  /** The changes written where another document, whose positions this one has, shows their targets. */
  function Placed(shown: Document, doc: Document, changes: seq<Change>): Document
    decreases |changes|
  {
    if changes == [] then doc
    else
      match FirstValue(shown, changes[0].target)
      case Some(p) =>
        if Has(doc, p) then Placed(shown, WithValue(doc, p, changes[0].value), changes[1..])
        else Placed(shown, doc, changes[1..])
      case None => Placed(shown, doc, changes[1..])
  }

  /** The changes applied to the values they name. */
  function Applied(doc: Document, changes: seq<Change>): Document {
    Placed(doc, doc, changes)
  }

  ghost predicate ValuesWithin(shown: Document, doc: Document) {
    forall p :: Has(shown, p) && IsValue(p) ==> Has(doc, p)
  }

  lemma {:induction false} PlacingKeepsShape(shown: Document, doc: Document, changes: seq<Change>)
    ensures SameShape(doc, Placed(shown, doc, changes))
    decreases |changes|
  {
    if changes != [] {
      var p := FirstValue(shown, changes[0].target);
      if p.Some? && Has(doc, p.value) {
        ValuesDoNotShape(doc, p.value, changes[0].value);
        PlacingKeepsShape(shown, WithValue(doc, p.value, changes[0].value), changes[1..]);
      } else {
        PlacingKeepsShape(shown, doc, changes[1..]);
      }
    }
  }

  /** The loop over a request succeeds exactly when every target is named, and leaves a dump of the changed document. */
  lemma {:induction false} PendingPlaces(
    shown: Document, pathFor: string -> Option<string>, doc: Document, changes: seq<Change>)
    requires ValuesWithin(shown, doc) && forall id :: pathFor(id) == PathFor(shown, id)
    ensures Pending(pathFor, ToJson(doc), changes).Some? <==> Named(shown, changes)
    ensures Named(shown, changes) ==>
              Pending(pathFor, ToJson(doc), changes).value.0 == ToJson(Placed(shown, doc, changes))
    decreases |changes|
  {
    if changes != [] {
      var p := FirstValue(shown, changes[0].target);
      assert pathFor(changes[0].target) == PathFor(shown, changes[0].target);
      assert changes[0] in changes;
      if p.Some? {
        var next := WithValue(doc, p.value, changes[0].value);
        PointerReachesItsValue(doc, p.value, changes[0].value);
        ValuesDoNotShape(doc, p.value, changes[0].value);
        PendingPlaces(shown, pathFor, next, changes[1..]);
        NamedTail(shown, changes);
      }
    }
  }

  lemma NamedTail(doc: Document, changes: seq<Change>)
    requires changes != []
    ensures Named(doc, changes) <==> FirstValue(doc, changes[0].target).Some? && Named(doc, changes[1..])
  {
    assert forall c :: c in changes <==> c == changes[0] || c in changes[1..];
  }

  lemma NormalizedValuesWithin(rules: Rules, doc: Document)
    ensures ValuesWithin(NormalizedDocument(rules, doc), doc)
  {
    var shown := NormalizedDocument(rules, doc);
    KeptWhole(doc.blocks, (b: Block) => !Boilerplate(rules, b.text));
    forall p | Has(shown, p) && IsValue(p) ensures Has(doc, p) {
      if p.CellAt? {
        CellWithin(doc.tables[p.t], p.r, p.c);
      }
    }
  }

  lemma CellWithin(table: Table, r: nat, c: nat)
    requires r < |NormalizedTable(table).rows| && c < |NormalizedTable(table).rows[r].cells|
    ensures r < |table.rows| && c < |table.rows[r].cells|
  {
  }

  /** The answer to a request, from the document read and what the loop over the changes leaves. */
  lemma RequestAnswers(reading: Reading, row: Record, read: Document, changes: seq<Change>)
    requires !row.status.Approved? && Replayable(row.canonical, row.log)
    requires reading.coerce(Replay(row.canonical, row.log)) == Some(read)
    ensures var result := Pending(id => reading.pathFor(read, id), Replay(row.canonical, row.log), changes);
            var (next, outcome) := Corrected(reading, row, row.version, changes);
            && outcome == (if result.None? then Unprocessable
                           else if reading.coerce(result.value.0).None? then Unreadable
                           else Done)
            && (outcome != Done ==> next == row)
            && (outcome == Done ==>
                  && next.version == row.version + 1 && !next.status.Approved?
                  && next.canonical == row.canonical && next.log == row.log + result.value.1
                  && next.presentation == row.presentation)
  {
  }

  /** The effective data is the dump of this document. */
  predicate Shows(row: Record, doc: Document) {
    Replayable(row.canonical, row.log) && Replay(row.canonical, row.log) == ToJson(doc)
  }

  /**
   What any correction request does to valid data: the changes land where the normalized document shows their targets;
   the request succeeds exactly when it shows them all and the schema accepts the result, and else changes nothing.
   */
  lemma CorrectionsLand(rules: Rules, row: Record, doc: Document, changes: seq<Change>)
    requires !row.status.Approved? && GoodLog(row) && Shows(row, doc) && Valid(doc)
    ensures var shown := NormalizedDocument(rules, doc);
            var left := Placed(shown, doc, changes);
            var (next, outcome) := Corrected(StandardReading(rules), row, row.version, changes);
            && outcome == (if !Named(shown, changes) then Unprocessable else if !Valid(left) then Unreadable else Done)
            && (outcome != Done ==> next == row)
            && (outcome == Done ==>
                  && next.version == row.version + 1 && !next.status.Approved? && GoodLog(next) && Shows(next, left)
                  && next.canonical == row.canonical && next.presentation == row.presentation)
  {
    var reading, shown := StandardReading(rules), NormalizedDocument(rules, doc);
    var pathFor := id => reading.pathFor(shown, id);
    var left := Placed(shown, doc, changes);
    CoercedDump(rules, doc);
    CoercedDump(rules, left);
    NormalizedValuesWithin(rules, doc);
    PendingPlaces(shown, pathFor, doc, changes);
    RequestAnswers(reading, row, shown, changes);
    if Named(shown, changes) {
      PendingReplays(pathFor, ToJson(doc), changes);
      ReplayAppends(row.canonical, row.log, Pending(pathFor, ToJson(doc), changes).value.1);
    }
    LogStaysGood(reading, row, Correct(row.version, changes));
  }

  // ---------- sound data ----------

  /** What stays true of stored data that only welcome changes have touched. */
  ghost predicate Sound(rules: Rules, doc: Document) {
    Valid(doc) && UniqueIds(doc) && NoBoilerplate(rules, doc)
  }

  lemma NormalizedShape(rules: Rules, doc: Document)
    requires NoBoilerplate(rules, doc)
    ensures SameShape(doc, NormalizedDocument(rules, doc))
  {
    forall p ensures Has(doc, p) <==> Has(NormalizedDocument(rules, doc), p) {
      if Has(doc, p) {
        SamePlace(rules, doc, p);
      }
      NothingDropped(rules, doc);
    }
    forall p | Has(doc, p) ensures IdAt(doc, p) == IdAt(NormalizedDocument(rules, doc), p) {
      SamePlace(rules, doc, p);
    }
  }

  /** Sound data shows its own positions. */
  lemma NormalizedTargets(rules: Rules, doc: Document, id: string)
    requires Sound(rules, doc)
    ensures FirstValue(NormalizedDocument(rules, doc), id) == FirstValue(doc, id)
  {
    NormalizedShape(rules, doc);
    SameShapeSameTargets(doc, NormalizedDocument(rules, doc), id);
  }

  lemma {:induction false} PlacedAlike(a: Document, b: Document, doc: Document, changes: seq<Change>)
    requires forall id :: FirstValue(a, id) == FirstValue(b, id)
    ensures Placed(a, doc, changes) == Placed(b, doc, changes)
    decreases |changes|
  {
    if changes != [] {
      var p := FirstValue(a, changes[0].target);
      assert p == FirstValue(b, changes[0].target);
      if p.Some? && Has(doc, p.value) {
        PlacedAlike(a, b, WithValue(doc, p.value, changes[0].value), changes[1..]);
      } else {
        PlacedAlike(a, b, doc, changes[1..]);
      }
    }
  }

  lemma NamedAlike(a: Document, b: Document, changes: seq<Change>)
    requires forall id :: FirstValue(a, id) == FirstValue(b, id)
    ensures Named(a, changes) <==> Named(b, changes)
  {
    forall c | c in changes ensures FirstValue(a, c.target).Some? <==> FirstValue(b, c.target).Some? {
      assert FirstValue(a, c.target) == FirstValue(b, c.target);
    }
  }

  /**
   A request on sound data succeeds exactly when every target names a value and the schema accepts the changed
   document; the effective data is then the dump of that document.
   */
  lemma CorrectionSucceedsExactly(rules: Rules, row: Record, doc: Document, changes: seq<Change>)
    requires !row.status.Approved? && GoodLog(row) && Shows(row, doc) && Sound(rules, doc)
    ensures var (next, outcome) := Corrected(StandardReading(rules), row, row.version, changes);
            && (outcome == Done <==> Named(doc, changes) && Valid(Applied(doc, changes)))
            && (outcome == Done ==>
                  next.version == row.version + 1 && GoodLog(next) && Shows(next, Applied(doc, changes)))
            && (outcome != Done ==> next == row)
  {
    var shown := NormalizedDocument(rules, doc);
    CorrectionsLand(rules, row, doc, changes);
    forall id ensures FirstValue(shown, id) == FirstValue(doc, id) {
      NormalizedTargets(rules, doc, id);
    }
    PlacedAlike(shown, doc, doc, changes);
    NamedAlike(shown, doc, changes);
  }

  /** A change to an existing value that the schema accepts and that leaves a text block content. */
  predicate Welcome(rules: Rules, doc: Document, change: Change) {
    match FirstValue(doc, change.target)
    case None => false
    case Some(p) => Acceptable(p, change.value) && !(p.BlockAt? && Boilerplate(rules, change.value))
  }

  function NormalizedChanges(changes: seq<Change>): seq<Change> {
    seq(|changes|, i requires 0 <= i < |changes| => Change(changes[i].target, Normalize(changes[i].value)))
  }

  lemma OneChange(rules: Rules, doc: Document, p: Position, v: string)
    requires Sound(rules, doc) && Has(doc, p) && IsValue(p)
    requires Acceptable(p, v) && !(p.BlockAt? && Boilerplate(rules, v))
    ensures Sound(rules, WithValue(doc, p, v)) && SameShape(doc, WithValue(doc, p, v))
  {
    ValidAfterCorrection(doc, p, v);
    ValuesDoNotShape(doc, p, v);
    SameShapeSameTargets(doc, WithValue(doc, p, v), "");
    forall b | b in WithValue(doc, p, v).blocks ensures !Boilerplate(rules, b.text) {
      assert b in doc.blocks || b.text == v;
    }
  }

  lemma NormalizedTail(changes: seq<Change>)
    requires changes != []
    ensures NormalizedChanges(changes) != []
    ensures NormalizedChanges(changes)[0] == Change(changes[0].target, Normalize(changes[0].value))
    ensures NormalizedChanges(changes)[1..] == NormalizedChanges(changes[1..])
  {
  }

  /** Welcome changes keep data sound, and reading back commutes with them: what is read are the normalized values. */
  lemma {:induction false} WelcomeChangesAreReadBack(
    rules: Rules, shown: Document, doc: Document, changes: seq<Change>)
    requires Sound(rules, doc) && SameShape(shown, doc) && forall c :: c in changes ==> Welcome(rules, shown, c)
    ensures Named(shown, changes) && Sound(rules, Placed(shown, doc, changes))
    ensures NormalizedDocument(rules, Placed(shown, doc, changes))
            == Placed(shown, NormalizedDocument(rules, doc), NormalizedChanges(changes))
    decreases |changes|
  {
    if changes != [] {
      assert changes[0] in changes && Welcome(rules, shown, changes[0]);
      var p, v := FirstValue(shown, changes[0].target).value, changes[0].value;
      OneChange(rules, doc, p, v);
      NormalizingCommutes(rules, doc, p, v);
      NormalizedTail(changes);
      WelcomeChangesAreReadBack(rules, shown, WithValue(doc, p, v), changes[1..]);
    }
  }

  /**
   A correction request of welcome changes succeeds; the effective data becomes the dump of the document with those
   values alone replaced, is as sound as before, and is read back as the old document with the normalized values.
   */
  lemma CorrectionsTakeEffect(rules: Rules, row: Record, doc: Document, changes: seq<Change>)
    requires !row.status.Approved? && GoodLog(row) && Replay(row.canonical, row.log) == ToJson(doc)
    requires Sound(rules, doc) && forall c :: c in changes ==> Welcome(rules, doc, c)
    ensures var (next, outcome) := Corrected(StandardReading(rules), row, row.version, changes);
            && outcome == Done && next.version == row.version + 1 && GoodLog(next)
            && Replay(next.canonical, next.log) == ToJson(Applied(doc, changes))
            && Sound(rules, Applied(doc, changes))
            && Coerced(rules, Replay(next.canonical, next.log))
               == Some(Applied(NormalizedDocument(rules, doc), NormalizedChanges(changes)))
  {
    var shown := NormalizedDocument(rules, doc);
    CorrectionSucceedsExactly(rules, row, doc, changes);
    WelcomeChangesAreReadBack(rules, doc, doc, changes);
    CoercedDump(rules, Applied(doc, changes));
    forall id ensures FirstValue(shown, id) == FirstValue(doc, id) {
      NormalizedTargets(rules, doc, id);
    }
    PlacedAlike(shown, doc, shown, NormalizedChanges(changes));
  }

  // ---------- a correction that goes astray ----------

  /** A request of one change lands wherever the pointer computed from the normalized document leads. */
  lemma OneChangeLands(rules: Rules, row: Record, doc: Document, id: string, p: Position, v: string)
    requires !row.status.Approved? && GoodLog(row) && Replay(row.canonical, row.log) == ToJson(doc)
    requires Valid(doc) && Has(doc, p) && IsValue(p) && Valid(WithValue(doc, p, v))
    requires FirstValue(NormalizedDocument(rules, doc), id) == Some(p)
    ensures var (next, outcome) := Corrected(StandardReading(rules), row, row.version, [Change(id, v)]);
            && outcome == Done && !next.status.Approved? && GoodLog(next)
            && Replay(next.canonical, next.log) == ToJson(WithValue(doc, p, v))
  {
    CorrectionsLand(rules, row, doc, [Change(id, v)]);
    OneIsPlaced(NormalizedDocument(rules, doc), doc, Change(id, v), p);
  }

  lemma OneIsPlaced(shown: Document, doc: Document, change: Change, p: Position)
    requires FirstValue(shown, change.target) == Some(p) && Has(doc, p)
    ensures Named(shown, [change]) && Placed(shown, doc, [change]) == WithValue(doc, p, change.value)
  {
    assert [change][1..] == [];
  }

  /** A sound document with one block turned into boilerplate. */
  lemma BlankedDocument(rules: Rules, doc: Document, i: nat, blank: string)
    requires Sound(rules, doc) && i < |doc.blocks| && Sized(blank, 1, 50000) && Boilerplate(rules, blank)
    ensures var blanked := WithValue(doc, BlockAt(i), blank);
            Valid(blanked) && UniqueIds(blanked) && OnlyBlank(rules, blanked.blocks, i)
  {
    ValidAfterCorrection(doc, BlockAt(i), blank);
    ValuesDoNotShape(doc, BlockAt(i), blank);
    SameShapeSameTargets(doc, WithValue(doc, BlockAt(i), blank), "");
    assert forall k :: 0 <= k < |doc.blocks| ==> doc.blocks[k] in doc.blocks;
  }

  /** What two requests leave: a blank in block i, and the text meant for block j in the block before it. */
  function Astray(doc: Document, i: nat, j: nat, blank: string, v: string): (left: Document)
    requires i < j < |doc.blocks|
    ensures |left.blocks| == |doc.blocks| && left.blocks[j - 1].text == v && left.blocks[j] == doc.blocks[j]
  {
    WithValue(WithValue(doc, BlockAt(i), blank), BlockAt(j - 1), v)
  }

  /** The request was accepted and left the effective data of this document. */
  predicate Leaves(answer: (Record, Outcome), doc: Document) {
    answer.1 == Done && Shows(answer.0, doc)
  }

  lemma SecondChangeGoesAstray(rules: Rules, row: Record, doc: Document, i: nat, j: nat, id: string, v: string)
    requires !row.status.Approved? && GoodLog(row) && Replay(row.canonical, row.log) == ToJson(doc)
    requires Valid(doc) && UniqueIds(doc) && i < j < |doc.blocks| && OnlyBlank(rules, doc.blocks, i)
    requires doc.blocks[j].id == id && Sized(v, 1, 50000)
    ensures var answer := Corrected(StandardReading(rules), row, row.version, [Change(id, v)]);
            Leaves(answer, WithValue(doc, BlockAt(j - 1), v))
  {
    PointersMoveUp(rules, doc, i, j);
    ValidAfterCorrection(doc, BlockAt(j - 1), v);
    OneChangeLands(rules, row, doc, id, BlockAt(j - 1), v);
  }

  lemma FirstChangeLands(rules: Rules, row: Record, doc: Document, i: nat, blank: string)
    requires !row.status.Approved? && GoodLog(row) && Replay(row.canonical, row.log) == ToJson(doc)
    requires Sound(rules, doc) && i < |doc.blocks| && Sized(blank, 1, 50000)
    ensures var answer := Corrected(StandardReading(rules), row, row.version, [Change(doc.blocks[i].id, blank)]);
            Leaves(answer, WithValue(doc, BlockAt(i), blank)) && !answer.0.status.Approved? && GoodLog(answer.0)
  {
    ValidAfterCorrection(doc, BlockAt(i), blank);
    NormalizedTargets(rules, doc, doc.blocks[i].id);
    BlockIsFound(doc, i, doc.blocks[i].id);
    OneChangeLands(rules, row, doc, doc.blocks[i].id, BlockAt(i), blank);
  }

  /**
   From every sound result with two text blocks or more: blanking block i is accepted, and then a correction of any
   later block j is accepted too, but it overwrites the block before j, while block j keeps its old text.
   */
  lemma MisdirectedCorrection(rules: Rules, row: Record, doc: Document, i: nat, j: nat, blank: string, v: string)
    requires !row.status.Approved? && GoodLog(row) && Replay(row.canonical, row.log) == ToJson(doc)
    requires Sound(rules, doc) && i < j < |doc.blocks|
    requires Sized(blank, 1, 50000) && Boilerplate(rules, blank) && Sized(v, 1, 50000)
    ensures var reading := StandardReading(rules);
            var first := Corrected(reading, row, row.version, [Change(doc.blocks[i].id, blank)]);
            var second := Corrected(reading, first.0, first.0.version, [Change(doc.blocks[j].id, v)]);
            Leaves(first, WithValue(doc, BlockAt(i), blank)) && Leaves(second, Astray(doc, i, j, blank, v))
  {
    BlankedDocument(rules, doc, i, blank);
    FirstChangeLands(rules, row, doc, i, blank);
    var one := Corrected(StandardReading(rules), row, row.version, [Change(doc.blocks[i].id, blank)]).0;
    SecondChangeGoesAstray(rules, one, WithValue(doc, BlockAt(i), blank), i, j, doc.blocks[j].id, v);
  }
}
