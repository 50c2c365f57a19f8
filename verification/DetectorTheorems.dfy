/** When the two quality detectors agree: the one that read the draft, and the one that reads the finished document. */
module DetectorTheorems {
  import opened Wrappers
  import opened Sequences
  import opened TextNormalization
  import opened ExtractionSchema
  import opened TextRules
  import opened QualityDetectors
  import opened ObservationIds
  import opened Extraction
  import opened ExtractionTheorems

  // ---------- what the detectors look at ----------

  /** A finding the detectors can make: a code at a position. */
  datatype Slot = Slot(at: Position, code: Code)

  function FieldSlots(n: nat): seq<Slot> {
    if n == 0 then []
    else FieldSlots(n - 1) + [Slot(FieldAt(n - 1), DuplicateObservation), Slot(FieldAt(n - 1), PossibleGibberish)]
  }

  function BlockSlots(n: nat): seq<Slot> {
    if n == 0 then [] else BlockSlots(n - 1) + [Slot(BlockAt(n - 1), PossibleGibberish)]
  }

  function CellSlots(t: nat, r: nat, n: nat): seq<Slot> {
    if n == 0 then [] else CellSlots(t, r, n - 1) + [Slot(CellAt(t, r, n - 1), PossibleGibberish)]
  }

  function RowSlots(t: nat, rows: seq<Row>, n: nat): seq<Slot>
    requires n <= |rows|
  {
    if n == 0 then [] else RowSlots(t, rows, n - 1) + CellSlots(t, n - 1, |rows[n - 1].cells|)
  }

  function TableSlots(tables: seq<Table>, n: nat): seq<Slot>
    requires n <= |tables|
  {
    if n == 0 then [] else TableSlots(tables, n - 1) + RowSlots(n - 1, tables[n - 1].rows, |tables[n - 1].rows|)
  }

  /** Every finding that can be made of a document, in the order in which the loops would make it. */
  function Slots(doc: Document): seq<Slot> {
    FieldSlots(|doc.fields|) + BlockSlots(|doc.blocks|) + TableSlots(doc.tables, |doc.tables|)
  }

  /** The judgement about one text, or about one field among the earlier ones. */
  predicate Flagged(rules: Rules, doc: Document, s: Slot) {
    && Has(doc, s.at)
    && match s.at
       case FieldAt(i) =>
         if s.code == DuplicateObservation then DuplicatesEarlier(rules, doc.fields, i)
         else
           && s.code == PossibleGibberish
           && (rules.suspicious(doc.fields[i].name) || rules.suspicious(doc.fields[i].value))
       case BlockAt(i) => s.code == PossibleGibberish && rules.suspicious(doc.blocks[i].text)
       case CellAt(t, r, c) => s.code == PossibleGibberish && rules.suspicious(doc.tables[t].rows[r].cells[c].value)
       case _ => false
  }

  function Flag(rules: Rules, doc: Document): Slot -> bool {
    s => Flagged(rules, doc, s)
  }

  function MessageOf(s: Slot): Message {
    if s.code == DuplicateObservation then DuplicatesEarlierField
    else if s.at.FieldAt? then SuspiciousField
    else if s.at.BlockAt? then SuspiciousText
    else SuspiciousCell
  }

  function CandidateOf(s: Slot): Candidate {
    Candidate(if IsValue(s.at) then PathOf(s.at) else "", s.code, MessageOf(s), None)
  }

  function IssueOf(doc: Document, s: Slot): Issue {
    Issue(if Has(doc, s.at) then IdAt(doc, s.at) else "", s.code, MessageOf(s), None)
  }

  function Issuer(doc: Document): Slot -> Issue {
    s => IssueOf(doc, s)
  }

  // ---------- the slots are distinct positions of the document ----------

  lemma {:induction false} FieldSlotsAreDistinct(n: nat)
    ensures NoDup(FieldSlots(n)) && forall s :: s in FieldSlots(n) ==> s.at.FieldAt? && s.at.i < n
  {
    if n > 0 {
      FieldSlotsAreDistinct(n - 1);
    }
  }

  lemma {:induction false} BlockSlotsAreDistinct(n: nat)
    ensures NoDup(BlockSlots(n)) && forall s :: s in BlockSlots(n) ==> s.at.BlockAt? && s.at.i < n
  {
    if n > 0 {
      BlockSlotsAreDistinct(n - 1);
    }
  }

  lemma {:induction false} CellSlotsAreDistinct(t: nat, r: nat, n: nat)
    ensures NoDup(CellSlots(t, r, n))
    ensures forall s :: s in CellSlots(t, r, n) ==> s.at.CellAt? && s.at.t == t && s.at.r == r && s.at.c < n
  {
    if n > 0 {
      CellSlotsAreDistinct(t, r, n - 1);
    }
  }

  lemma {:induction false} RowSlotsAreDistinct(t: nat, rows: seq<Row>, n: nat)
    requires n <= |rows|
    ensures NoDup(RowSlots(t, rows, n))
    ensures forall s :: s in RowSlots(t, rows, n) ==>
              s.at.CellAt? && s.at.t == t && s.at.r < n && s.at.c < |rows[s.at.r].cells|
  {
    if n > 0 {
      RowSlotsAreDistinct(t, rows, n - 1);
      CellSlotsAreDistinct(t, n - 1, |rows[n - 1].cells|);
      NoDupJoins(RowSlots(t, rows, n - 1), CellSlots(t, n - 1, |rows[n - 1].cells|));
    }
  }

  lemma {:induction false} TableSlotsAreDistinct(tables: seq<Table>, n: nat)
    requires n <= |tables|
    ensures NoDup(TableSlots(tables, n))
    ensures forall s :: s in TableSlots(tables, n) ==>
              && s.at.CellAt? && s.at.t < n && s.at.r < |tables[s.at.t].rows|
              && s.at.c < |tables[s.at.t].rows[s.at.r].cells|
  {
    if n > 0 {
      TableSlotsAreDistinct(tables, n - 1);
      RowSlotsAreDistinct(n - 1, tables[n - 1].rows, |tables[n - 1].rows|);
      NoDupJoins(TableSlots(tables, n - 1), RowSlots(n - 1, tables[n - 1].rows, |tables[n - 1].rows|));
    }
  }

  /** No finding can be made twice, and each is about a text the document has. */
  lemma SlotsAreDistinct(doc: Document)
    ensures NoDup(Slots(doc)) && forall s :: s in Slots(doc) ==> Has(doc, s.at) && IsValue(s.at)
  {
    var f, b, t := FieldSlots(|doc.fields|), BlockSlots(|doc.blocks|), TableSlots(doc.tables, |doc.tables|);
    FieldSlotsAreDistinct(|doc.fields|);
    BlockSlotsAreDistinct(|doc.blocks|);
    TableSlotsAreDistinct(doc.tables, |doc.tables|);
    NoDupJoins(f, b);
    NoDupJoins(f + b, t);
  }

  // ---------- the slots are all there, in order ----------

  /** Every text of the document can be suspicious, and every field a duplicate. */
  predicate IsSlot(doc: Document, s: Slot) {
    && Has(doc, s.at) && IsValue(s.at)
    && (s.code.PossibleGibberish? || (s.code.DuplicateObservation? && s.at.FieldAt?))
  }

  /** Fields come first, a duplicate before a suspicion, then text blocks, then cells row by row. */
  predicate SlotBefore(a: Slot, b: Slot) {
    match a.at
    case FieldAt(i) =>
      !b.at.FieldAt? || i < b.at.i || (i == b.at.i && a.code.DuplicateObservation? && b.code.PossibleGibberish?)
    case BlockAt(i) => b.at.CellAt? || (b.at.BlockAt? && i < b.at.i)
    case CellAt(t, r, c) =>
      && b.at.CellAt?
      && (t < b.at.t || (t == b.at.t && (r < b.at.r || (r == b.at.r && c < b.at.c))))
    case _ => false
  }

  predicate SlotsInOrder(slots: seq<Slot>) {
    forall i, j :: 0 <= i < j < |slots| ==> SlotBefore(slots[i], slots[j])
  }

  lemma OrderJoins(a: seq<Slot>, b: seq<Slot>)
    requires SlotsInOrder(a) && SlotsInOrder(b) && forall x, y :: x in a && y in b ==> SlotBefore(x, y)
    ensures SlotsInOrder(a + b)
  {
    var s := a + b;
    forall i, j | 0 <= i < j < |s| ensures SlotBefore(s[i], s[j]) {
      if i < |a| <= j {
        assert s[i] in a && s[j] == b[j - |a|];
      }
    }
  }

  lemma {:induction false} FieldSlotsInOrder(n: nat)
    ensures SlotsInOrder(FieldSlots(n))
    ensures forall s :: s in FieldSlots(n) <==>
              s.at.FieldAt? && s.at.i < n && (s.code.DuplicateObservation? || s.code.PossibleGibberish?)
  {
    if n > 0 {
      FieldSlotsInOrder(n - 1);
      var two := [Slot(FieldAt(n - 1), DuplicateObservation), Slot(FieldAt(n - 1), PossibleGibberish)];
      OrderJoins(FieldSlots(n - 1), two);
      SlotsOfSum(FieldSlots(n - 1), two);
    }
  }

  lemma SlotsOfSum(a: seq<Slot>, b: seq<Slot>)
    ensures forall s :: s in a + b <==> s in a || s in b
  {
  }

  lemma {:induction false} BlockSlotsInOrder(n: nat)
    ensures SlotsInOrder(BlockSlots(n))
    ensures forall s :: s in BlockSlots(n) <==> s.at.BlockAt? && s.at.i < n && s.code.PossibleGibberish?
  {
    if n > 0 {
      BlockSlotsInOrder(n - 1);
    }
  }

  lemma {:induction false} CellSlotsInOrder(t: nat, r: nat, n: nat)
    ensures SlotsInOrder(CellSlots(t, r, n))
    ensures forall s :: s in CellSlots(t, r, n) <==>
              s.at.CellAt? && s.at.t == t && s.at.r == r && s.at.c < n && s.code.PossibleGibberish?
  {
    if n > 0 {
      CellSlotsInOrder(t, r, n - 1);
    }
  }

  lemma {:induction false} RowSlotsInOrder(t: nat, rows: seq<Row>, n: nat)
    requires n <= |rows|
    ensures SlotsInOrder(RowSlots(t, rows, n))
    ensures forall s :: s in RowSlots(t, rows, n) <==>
              && s.at.CellAt? && s.at.t == t && s.at.r < n && s.at.c < |rows[s.at.r].cells| && s.code.PossibleGibberish?
  {
    if n > 0 {
      RowSlotsInOrder(t, rows, n - 1);
      CellSlotsInOrder(t, n - 1, |rows[n - 1].cells|);
      OrderJoins(RowSlots(t, rows, n - 1), CellSlots(t, n - 1, |rows[n - 1].cells|));
      SlotsOfSum(RowSlots(t, rows, n - 1), CellSlots(t, n - 1, |rows[n - 1].cells|));
    }
  }

  lemma {:induction false} TableSlotsInOrder(tables: seq<Table>, n: nat)
    requires n <= |tables|
    ensures SlotsInOrder(TableSlots(tables, n))
    ensures forall s :: s in TableSlots(tables, n) <==>
              && s.at.CellAt? && s.at.t < n && s.at.r < |tables[s.at.t].rows|
              && s.at.c < |tables[s.at.t].rows[s.at.r].cells| && s.code.PossibleGibberish?
  {
    if n > 0 {
      var rows := tables[n - 1].rows;
      TableSlotsInOrder(tables, n - 1);
      RowSlotsInOrder(n - 1, rows, |rows|);
      OrderJoins(TableSlots(tables, n - 1), RowSlots(n - 1, rows, |rows|));
      SlotsOfSum(TableSlots(tables, n - 1), RowSlots(n - 1, rows, |rows|));
    }
  }

  /** The detectors look at every text of a document, in one order. */
  lemma SlotsAreExact(doc: Document)
    ensures SlotsInOrder(Slots(doc)) && forall s :: s in Slots(doc) <==> IsSlot(doc, s)
  {
    var f, b, t := FieldSlots(|doc.fields|), BlockSlots(|doc.blocks|), TableSlots(doc.tables, |doc.tables|);
    FieldSlotsInOrder(|doc.fields|);
    BlockSlotsInOrder(|doc.blocks|);
    TableSlotsInOrder(doc.tables, |doc.tables|);
    KindsInOrder(f, b, t);
    SlotsOfSum(f, b);
    SlotsOfSum(f + b, t);
  }

  lemma KindsInOrder(f: seq<Slot>, b: seq<Slot>, t: seq<Slot>)
    requires SlotsInOrder(f) && SlotsInOrder(b) && SlotsInOrder(t)
    requires (forall s :: s in f ==> s.at.FieldAt?) && (forall s :: s in b ==> s.at.BlockAt?)
    requires forall s :: s in t ==> s.at.CellAt?
    ensures SlotsInOrder(f + b + t)
  {
    OrderJoins(f, b);
    SlotsOfSum(f, b);
    OrderJoins(f + b, t);
  }

  // ---------- both detectors list the flagged slots ----------

  /** What is reported about a slot, and whether it is. */
  predicate Told<B(==)>(flag: Slot -> bool, make: Slot -> B, s: Slot, holds: bool, report: B) {
    (flag(s) <==> holds) && make(s) == report
  }

  predicate FieldsTold(rules: Rules, flag: Slot -> bool, issue: Slot -> Issue, fields: seq<Field>) {
    forall i :: 0 <= i < |fields| ==>
      && Told(flag, issue, Slot(FieldAt(i), DuplicateObservation), DuplicatesEarlier(rules, fields, i),
              Issue(fields[i].id, DuplicateObservation, DuplicatesEarlierField, None))
      && Told(flag, issue, Slot(FieldAt(i), PossibleGibberish),
              rules.suspicious(fields[i].name) || rules.suspicious(fields[i].value),
              Issue(fields[i].id, PossibleGibberish, SuspiciousField, None))
  }

  predicate BlocksTold(rules: Rules, flag: Slot -> bool, issue: Slot -> Issue, blocks: seq<Block>) {
    forall i :: 0 <= i < |blocks| ==>
      Told(flag, issue, Slot(BlockAt(i), PossibleGibberish), rules.suspicious(blocks[i].text),
           Issue(blocks[i].id, PossibleGibberish, SuspiciousText, None))
  }

  predicate CellsTold(rules: Rules, flag: Slot -> bool, issue: Slot -> Issue, t: nat, r: nat, cells: seq<Cell>) {
    forall c :: 0 <= c < |cells| ==>
      Told(flag, issue, Slot(CellAt(t, r, c), PossibleGibberish), rules.suspicious(cells[c].value),
           Issue(cells[c].id, PossibleGibberish, SuspiciousCell, None))
  }

  predicate RowsTold(rules: Rules, flag: Slot -> bool, issue: Slot -> Issue, t: nat, rows: seq<Row>) {
    forall r :: 0 <= r < |rows| ==> CellsTold(rules, flag, issue, t, r, rows[r].cells)
  }

  lemma {:induction false} FieldIssuesAreListed(
    rules: Rules, flag: Slot -> bool, issue: Slot -> Issue, fields: seq<Field>, n: nat)
    requires FieldsTold(rules, flag, issue, fields) && n <= |fields|
    ensures FieldIssues(rules, fields, n) == Listed(FieldSlots(n), flag, issue)
  {
    if n > 0 {
      FieldIssuesAreListed(rules, flag, issue, fields, n - 1);
      var at := FieldAt(n - 1);
      ListedTwo(FieldSlots(n - 1), Slot(at, DuplicateObservation), Slot(at, PossibleGibberish), flag, issue);
    }
  }

  lemma {:induction false} BlockIssuesAreListed(
    rules: Rules, flag: Slot -> bool, issue: Slot -> Issue, blocks: seq<Block>, n: nat)
    requires BlocksTold(rules, flag, issue, blocks) && n <= |blocks|
    ensures BlockIssues(rules, blocks, n) == Listed(BlockSlots(n), flag, issue)
  {
    if n > 0 {
      BlockIssuesAreListed(rules, flag, issue, blocks, n - 1);
      ListedNext(BlockSlots(n - 1), Slot(BlockAt(n - 1), PossibleGibberish), flag, issue);
    }
  }

  lemma {:induction false} CellIssuesAreListed(
    rules: Rules, flag: Slot -> bool, issue: Slot -> Issue, t: nat, r: nat, cells: seq<Cell>, n: nat)
    requires CellsTold(rules, flag, issue, t, r, cells) && n <= |cells|
    ensures CellIssues(rules, cells, n) == Listed(CellSlots(t, r, n), flag, issue)
  {
    if n > 0 {
      CellIssuesAreListed(rules, flag, issue, t, r, cells, n - 1);
      ListedNext(CellSlots(t, r, n - 1), Slot(CellAt(t, r, n - 1), PossibleGibberish), flag, issue);
    }
  }

  lemma {:induction false} RowIssuesAreListed(
    rules: Rules, flag: Slot -> bool, issue: Slot -> Issue, t: nat, rows: seq<Row>, n: nat)
    requires RowsTold(rules, flag, issue, t, rows) && n <= |rows|
    ensures RowIssues(rules, rows, n) == Listed(RowSlots(t, rows, n), flag, issue)
  {
    if n > 0 {
      RowIssuesAreListed(rules, flag, issue, t, rows, n - 1);
      CellIssuesAreListed(rules, flag, issue, t, n - 1, rows[n - 1].cells, |rows[n - 1].cells|);
      ListedJoins(RowSlots(t, rows, n - 1), CellSlots(t, n - 1, |rows[n - 1].cells|), flag, issue);
    }
  }

  lemma {:induction false} TableIssuesAreListed(
    rules: Rules, flag: Slot -> bool, issue: Slot -> Issue, tables: seq<Table>, n: nat)
    requires (forall t :: 0 <= t < |tables| ==> RowsTold(rules, flag, issue, t, tables[t].rows)) && n <= |tables|
    ensures TableIssues(rules, tables, n) == Listed(TableSlots(tables, n), flag, issue)
  {
    if n > 0 {
      var rows := tables[n - 1].rows;
      TableIssuesAreListed(rules, flag, issue, tables, n - 1);
      RowIssuesAreListed(rules, flag, issue, n - 1, rows, |rows|);
      ListedJoins(TableSlots(tables, n - 1), RowSlots(n - 1, rows, |rows|), flag, issue);
    }
  }

  lemma RowsAreTold(rules: Rules, doc: Document, t: nat)
    requires Has(doc, TableAt(t))
    ensures RowsTold(rules, Flag(rules, doc), Issuer(doc), t, doc.tables[t].rows)
  {
    var rows := doc.tables[t].rows;
    forall r | 0 <= r < |rows| ensures CellsTold(rules, Flag(rules, doc), Issuer(doc), t, r, rows[r].cells) {
    }
  }

  lemma FieldsAreTold(rules: Rules, doc: Document)
    ensures FieldsTold(rules, Flag(rules, doc), Issuer(doc), doc.fields)
    ensures BlocksTold(rules, Flag(rules, doc), Issuer(doc), doc.blocks)
  {
  }

  lemma ThreeParts<B>(f: seq<Slot>, b: seq<Slot>, t: seq<Slot>, flag: Slot -> bool, make: Slot -> B)
    ensures Listed(f + b + t, flag, make) == Listed(f, flag, make) + Listed(b, flag, make) + Listed(t, flag, make)
  {
    ListedJoins(f, b, flag, make);
    ListedJoins(f + b, t, flag, make);
  }

  /** The detector over a finished document reports exactly the flagged slots, in order. */
  lemma IssuesAreTheFlagged(rules: Rules, doc: Document)
    ensures Issues(rules, doc) == Listed(Slots(doc), Flag(rules, doc), Issuer(doc))
  {
    var flag, issue := Flag(rules, doc), Issuer(doc);
    FieldsAreTold(rules, doc);
    forall t | 0 <= t < |doc.tables| ensures RowsTold(rules, flag, issue, t, doc.tables[t].rows) {
      RowsAreTold(rules, doc, t);
    }
    PartsAreListed(rules, flag, issue, doc);
  }

  lemma PartsAreListed(rules: Rules, flag: Slot -> bool, issue: Slot -> Issue, doc: Document)
    requires FieldsTold(rules, flag, issue, doc.fields) && BlocksTold(rules, flag, issue, doc.blocks)
    requires forall t :: 0 <= t < |doc.tables| ==> RowsTold(rules, flag, issue, t, doc.tables[t].rows)
    ensures Issues(rules, doc) == Listed(Slots(doc), flag, issue)
  {
    FieldIssuesAreListed(rules, flag, issue, doc.fields, |doc.fields|);
    BlockIssuesAreListed(rules, flag, issue, doc.blocks, |doc.blocks|);
    TableIssuesAreListed(rules, flag, issue, doc.tables, |doc.tables|);
    ThreeParts(FieldSlots(|doc.fields|), BlockSlots(|doc.blocks|), TableSlots(doc.tables, |doc.tables|), flag, issue);
  }

  // ---------- the draft as a document ----------

  /** A finished document of the draft's dimensions. */
  predicate SameDimensions(draft: Draft, doc: Document) {
    && |doc.fields| == |draft.fields| && |doc.tables| == |draft.tables| && |doc.blocks| == |draft.blocks|
    && forall t :: 0 <= t < |doc.tables| ==> SameRows(draft.tables[t].rows, doc.tables[t].rows)
  }

  predicate SameRows(drafted: seq<seq<string>>, rows: seq<Row>) {
    |rows| == |drafted| && forall r :: 0 <= r < |rows| ==> |rows[r].cells| == |drafted[r]|
  }

  function DraftedCells(drafted: seq<string>, cells: seq<Cell>): seq<Cell>
    requires |cells| == |drafted|
  {
    seq(|cells|, c requires 0 <= c < |cells| => cells[c].(value := drafted[c]))
  }

  function DraftedRows(drafted: seq<seq<string>>, rows: seq<Row>): seq<Row>
    requires SameRows(drafted, rows)
  {
    seq(|rows|, r requires 0 <= r < |rows| => rows[r].(cells := DraftedCells(drafted[r], rows[r].cells)))
  }

  /** The document with the draft's own texts in place of the normalized ones. */
  function Drafted(draft: Draft, doc: Document): Document
    requires SameDimensions(draft, doc)
  {
    doc.(
    fields := seq(|doc.fields|, i requires 0 <= i < |doc.fields| =>
      doc.fields[i].(name := draft.fields[i].name, value := draft.fields[i].value)),
    tables := seq(|doc.tables|, t requires 0 <= t < |doc.tables| =>
      doc.tables[t].(rows := DraftedRows(draft.tables[t].rows, doc.tables[t].rows))),
    blocks := seq(|doc.blocks|, i requires 0 <= i < |doc.blocks| => doc.blocks[i].(text := draft.blocks[i].text)))
  }

  lemma FinishedDocumentsKeepDimensions(draft: Draft, documentType: string, pages: seq<PageSize>, doc: Document)
    requires Finishes(draft, documentType, pages, doc)
    ensures SameDimensions(draft, doc)
  {
    forall t | 0 <= t < |doc.tables| ensures SameRows(draft.tables[t].rows, doc.tables[t].rows) {
      assert TableOf(draft.tables[t], t, pages) == Ok(doc.tables[t]);
    }
  }

  predicate DraftedFieldsTold(rules: Rules, flag: Slot -> bool, candidate: Slot -> Candidate, fields: seq<DraftField>) {
    forall i :: 0 <= i < |fields| ==>
      && Told(flag, candidate, Slot(FieldAt(i), DuplicateObservation), RepeatsEarlier(rules, fields, i),
              Candidate(FieldPath(i), DuplicateObservation, DuplicatesEarlierField, None))
      && Told(flag, candidate, Slot(FieldAt(i), PossibleGibberish),
              rules.suspicious(fields[i].name) || rules.suspicious(fields[i].value),
              Candidate(FieldPath(i), PossibleGibberish, SuspiciousField, None))
  }

  predicate DraftedBlocksTold(rules: Rules, flag: Slot -> bool, candidate: Slot -> Candidate, blocks: seq<DraftBlock>) {
    forall i :: 0 <= i < |blocks| ==>
      Told(flag, candidate, Slot(BlockAt(i), PossibleGibberish), rules.suspicious(blocks[i].text),
           Candidate(BlockPath(i), PossibleGibberish, SuspiciousText, None))
  }

  predicate DraftedCellsTold(
    rules: Rules, flag: Slot -> bool, candidate: Slot -> Candidate, t: nat, r: nat, row: seq<string>) {
    forall c :: 0 <= c < |row| ==>
      Told(flag, candidate, Slot(CellAt(t, r, c), PossibleGibberish), rules.suspicious(row[c]),
           Candidate(CellPath(t, r, c), PossibleGibberish, SuspiciousCell, None))
  }

  predicate DraftedRowsTold(
    rules: Rules, flag: Slot -> bool, candidate: Slot -> Candidate, t: nat, rows: seq<seq<string>>) {
    forall r :: 0 <= r < |rows| ==> DraftedCellsTold(rules, flag, candidate, t, r, rows[r])
  }

  lemma {:induction false} FieldCandidatesAreListed(
    rules: Rules, flag: Slot -> bool, candidate: Slot -> Candidate, fields: seq<DraftField>, n: nat)
    requires DraftedFieldsTold(rules, flag, candidate, fields) && n <= |fields|
    ensures FieldCandidates(rules, fields, n) == Listed(FieldSlots(n), flag, candidate)
  {
    if n > 0 {
      FieldCandidatesAreListed(rules, flag, candidate, fields, n - 1);
      var at := FieldAt(n - 1);
      ListedTwo(FieldSlots(n - 1), Slot(at, DuplicateObservation), Slot(at, PossibleGibberish), flag, candidate);
    }
  }

  lemma {:induction false} BlockCandidatesAreListed(
    rules: Rules, flag: Slot -> bool, candidate: Slot -> Candidate, blocks: seq<DraftBlock>, n: nat)
    requires DraftedBlocksTold(rules, flag, candidate, blocks) && n <= |blocks|
    ensures BlockCandidates(rules, blocks, n) == Listed(BlockSlots(n), flag, candidate)
  {
    if n > 0 {
      BlockCandidatesAreListed(rules, flag, candidate, blocks, n - 1);
      ListedNext(BlockSlots(n - 1), Slot(BlockAt(n - 1), PossibleGibberish), flag, candidate);
    }
  }

  lemma {:induction false} CellCandidatesAreListed(
    rules: Rules, flag: Slot -> bool, candidate: Slot -> Candidate, t: nat, r: nat, row: seq<string>, n: nat)
    requires DraftedCellsTold(rules, flag, candidate, t, r, row) && n <= |row|
    ensures CellCandidates(rules, t, r, row, n) == Listed(CellSlots(t, r, n), flag, candidate)
  {
    if n > 0 {
      CellCandidatesAreListed(rules, flag, candidate, t, r, row, n - 1);
      ListedNext(CellSlots(t, r, n - 1), Slot(CellAt(t, r, n - 1), PossibleGibberish), flag, candidate);
    }
  }

  lemma {:induction false} RowCandidatesAreListed(
    rules: Rules, flag: Slot -> bool, candidate: Slot -> Candidate, t: nat, drafted: seq<seq<string>>, rows: seq<Row>,
    n: nat)
    requires DraftedRowsTold(rules, flag, candidate, t, drafted) && SameRows(drafted, rows) && n <= |rows|
    ensures RowCandidates(rules, t, drafted, n) == Listed(RowSlots(t, rows, n), flag, candidate)
  {
    if n > 0 {
      RowCandidatesAreListed(rules, flag, candidate, t, drafted, rows, n - 1);
      CellCandidatesAreListed(rules, flag, candidate, t, n - 1, drafted[n - 1], |drafted[n - 1]|);
      ListedJoins(RowSlots(t, rows, n - 1), CellSlots(t, n - 1, |rows[n - 1].cells|), flag, candidate);
    }
  }

  lemma {:induction false} TableCandidatesAreListed(
    rules: Rules, flag: Slot -> bool, candidate: Slot -> Candidate, draft: Draft, doc: Document, n: nat)
    requires SameDimensions(draft, doc) && n <= |doc.tables|
    requires forall t :: 0 <= t < |draft.tables| ==> DraftedRowsTold(rules, flag, candidate, t, draft.tables[t].rows)
    ensures TableCandidates(rules, draft.tables, n) == Listed(TableSlots(doc.tables, n), flag, candidate)
  {
    if n > 0 {
      var rows := doc.tables[n - 1].rows;
      TableCandidatesAreListed(rules, flag, candidate, draft, doc, n - 1);
      assert SameRows(draft.tables[n - 1].rows, rows);
      RowCandidatesAreListed(rules, flag, candidate, n - 1, draft.tables[n - 1].rows, rows, |rows|);
      ListedJoins(TableSlots(doc.tables, n - 1), RowSlots(n - 1, rows, |rows|), flag, candidate);
    }
  }

  lemma DraftedFieldsAreTold(rules: Rules, draft: Draft, doc: Document)
    requires SameDimensions(draft, doc)
    ensures DraftedFieldsTold(rules, Flag(rules, Drafted(draft, doc)), CandidateOf, draft.fields)
  {
    var raw := Drafted(draft, doc);
    forall i | 0 <= i < |draft.fields|
      ensures RepeatsEarlier(rules, draft.fields, i) <==> DuplicatesEarlier(rules, raw.fields, i)
    {
      RepeatedAlike(rules, draft.fields, raw.fields, i);
    }
  }

  lemma RepeatedAlike(rules: Rules, drafted: seq<DraftField>, fields: seq<Field>, i: nat)
    requires i < |fields| == |drafted|
    requires forall j :: 0 <= j < |fields| ==> fields[j].name == drafted[j].name && fields[j].value == drafted[j].value
    ensures RepeatsEarlier(rules, drafted, i) <==> DuplicatesEarlier(rules, fields, i)
  {
  }

  lemma DraftedBlocksAreTold(rules: Rules, draft: Draft, doc: Document)
    requires SameDimensions(draft, doc)
    ensures DraftedBlocksTold(rules, Flag(rules, Drafted(draft, doc)), CandidateOf, draft.blocks)
  {
  }

  lemma DraftedCellIsTold(rules: Rules, draft: Draft, doc: Document, t: nat, r: nat, c: nat)
    requires SameDimensions(draft, doc) && Has(doc, CellAt(t, r, c))
    ensures SameRows(draft.tables[t].rows, doc.tables[t].rows)
    ensures Told(Flag(rules, Drafted(draft, doc)), CandidateOf, Slot(CellAt(t, r, c), PossibleGibberish),
                 rules.suspicious(draft.tables[t].rows[r][c]),
                 Candidate(CellPath(t, r, c), PossibleGibberish, SuspiciousCell, None))
  {
    var raw := Drafted(draft, doc);
    assert raw.tables[t].rows == DraftedRows(draft.tables[t].rows, doc.tables[t].rows);
    assert raw.tables[t].rows[r].cells[c].value == draft.tables[t].rows[r][c];
  }

  lemma DraftedRowsAreTold(rules: Rules, draft: Draft, doc: Document, t: nat)
    requires SameDimensions(draft, doc) && t < |draft.tables|
    ensures DraftedRowsTold(rules, Flag(rules, Drafted(draft, doc)), CandidateOf, t, draft.tables[t].rows)
  {
    var flag, rows := Flag(rules, Drafted(draft, doc)), draft.tables[t].rows;
    assert SameRows(rows, doc.tables[t].rows);
    forall r | 0 <= r < |rows| ensures DraftedCellsTold(rules, flag, CandidateOf, t, r, rows[r]) {
      forall c | 0 <= c < |rows[r]|
        ensures Told(flag, CandidateOf, Slot(CellAt(t, r, c), PossibleGibberish), rules.suspicious(rows[r][c]),
                     Candidate(CellPath(t, r, c), PossibleGibberish, SuspiciousCell, None))
      {
        DraftedCellIsTold(rules, draft, doc, t, r, c);
      }
    }
  }

  lemma DraftedPartsAreListed(
    rules: Rules, flag: Slot -> bool, candidate: Slot -> Candidate, draft: Draft, doc: Document)
    requires SameDimensions(draft, doc)
    requires DraftedFieldsTold(rules, flag, candidate, draft.fields)
    requires DraftedBlocksTold(rules, flag, candidate, draft.blocks)
    requires forall t :: 0 <= t < |draft.tables| ==> DraftedRowsTold(rules, flag, candidate, t, draft.tables[t].rows)
    ensures Candidates(rules, draft) == Listed(Slots(doc), flag, candidate)
  {
    FieldCandidatesAreListed(rules, flag, candidate, draft.fields, |draft.fields|);
    BlockCandidatesAreListed(rules, flag, candidate, draft.blocks, |draft.blocks|);
    TableCandidatesAreListed(rules, flag, candidate, draft, doc, |doc.tables|);
    ThreeParts(
      FieldSlots(|doc.fields|), BlockSlots(|doc.blocks|), TableSlots(doc.tables, |doc.tables|), flag, candidate);
  }

  /** The detector over a draft reports exactly the slots flagged in the draft's own texts, in order. */
  lemma CandidatesAreTheFlagged(rules: Rules, draft: Draft, doc: Document)
    requires SameDimensions(draft, doc)
    ensures Candidates(rules, draft) == Listed(Slots(doc), Flag(rules, Drafted(draft, doc)), CandidateOf)
  {
    DraftedFieldsAreTold(rules, draft, doc);
    DraftedBlocksAreTold(rules, draft, doc);
    forall t | 0 <= t < |draft.tables|
      ensures DraftedRowsTold(rules, Flag(rules, Drafted(draft, doc)), CandidateOf, t, draft.tables[t].rows)
    {
      DraftedRowsAreTold(rules, draft, doc, t);
    }
    DraftedPartsAreListed(rules, Flag(rules, Drafted(draft, doc)), CandidateOf, draft, doc);
  }

  // ---------- settling loses nothing ----------

  /** The two reports about one slot: the path leads to the id, and no two slots share id and code. */
  predicate Settles(resolve: string -> Option<string>, candidate: Slot -> Candidate, issue: Slot -> Issue, s: Slot) {
    var c, i := candidate(s), issue(s);
    resolve(c.path) == Some(i.target) && c.code == i.code && c.message == i.message && c.suggested == i.suggested
  }

  predicate Apart(issue: Slot -> Issue, slots: seq<Slot>) {
    forall a, b :: a in slots && b in slots && issue(a).target == issue(b).target && issue(a).code == issue(b).code ==>
      a == b
  }

  lemma SlotIsNew(issue: Slot -> Issue, slots: seq<Slot>, i: nat)
    requires Apart(issue, slots) && NoDup(slots) && i < |slots|
    ensures (issue(slots[i]).target, issue(slots[i]).code) !in IssueKeys(Each(slots, issue)[..i])
  {
    EachAt(slots, issue);
    var earlier := Each(slots, issue)[..i];
    forall j | 0 <= j < i
      ensures (earlier[j].target, earlier[j].code) != (issue(slots[i]).target, issue(slots[i]).code)
    {
      assert slots[j] in slots && slots[i] in slots && slots[i] != slots[j];
    }
  }

  lemma {:induction false} NothingToSettle(
    resolve: string -> Option<string>, candidate: Slot -> Candidate, issue: Slot -> Issue, slots: seq<Slot>, n: nat)
    requires Apart(issue, slots) && NoDup(slots) && n <= |slots|
    requires forall s :: s in slots ==> Settles(resolve, candidate, issue, s)
    ensures Settled(resolve, Each(slots, candidate), n) == Each(slots, issue)[..n]
  {
    if n > 0 {
      var i := n - 1;
      NothingToSettle(resolve, candidate, issue, slots, i);
      SlotIsNew(issue, slots, i);
      EachAt(slots, candidate);
      EachAt(slots, issue);
      assert Settles(resolve, candidate, issue, slots[i]);
      assert Each(slots, issue)[..n] == Each(slots, issue)[..i] + [issue(slots[i])];
    }
  }

  lemma SlotSettles(doc: Document, s: Slot)
    requires Has(doc, s.at) && IsValue(s.at)
    ensures Settles(path => TargetId(doc, path), CandidateOf, Issuer(doc), s)
  {
    PathNamesItsPosition(doc, s.at);
  }

  lemma SlotsStayApart(doc: Document, slots: seq<Slot>)
    requires UniqueIds(doc) && forall s :: s in slots ==> Has(doc, s.at)
    ensures Apart(Issuer(doc), slots)
  {
  }

  lemma FirstOfEach<A, B>(s: seq<A>, f: A -> B, n: nat)
    ensures FirstOf(Each(s, f), n) == Each(FirstOf(s, n), f)
  {
    EachAt(s, f);
    EachAt(FirstOf(s, n), f);
  }

  lemma FirstSlotsRemain(slots: seq<Slot>, flag: Slot -> bool, n: nat)
    requires NoDup(slots)
    ensures var found := FirstOf(Keep(slots, flag), n);
            NoDup(found) && forall s :: s in found ==> s in slots
  {
    KeepMembers(slots, flag);
  }

  lemma TruncateIsFirstOf<T>(s: seq<T>)
    ensures Truncate(s) == FirstOf(s, LIMIT)
  {
  }

  /** Without model review, a finished result carries the first 200 findings about the draft's own texts. */
  lemma FinalIssuesAreTheFlagged(rules: Rules, draft: Draft, doc: Document)
    requires SameDimensions(draft, doc) && UniqueIds(doc)
    ensures FinalIssues(rules, draft, doc, [])
            == Each(FirstOf(Keep(Slots(doc), Flag(rules, Drafted(draft, doc))), LIMIT), Issuer(doc))
  {
    var flag, slots := Flag(rules, Drafted(draft, doc)), Slots(doc);
    SlotsAreDistinct(doc);
    CandidatesAreTheFlagged(rules, draft, doc);
    SlotsAreSettled(rules, draft, doc, slots, flag);
  }

  lemma SlotsAreSettled(rules: Rules, draft: Draft, doc: Document, slots: seq<Slot>, flag: Slot -> bool)
    requires UniqueIds(doc) && NoDup(slots) && forall s :: s in slots ==> Has(doc, s.at) && IsValue(s.at)
    requires Candidates(rules, draft) == Listed(slots, flag, CandidateOf)
    ensures FinalIssues(rules, draft, doc, []) == Each(FirstOf(Keep(slots, flag), LIMIT), Issuer(doc))
  {
    var found := FirstOf(Keep(slots, flag), LIMIT);
    FirstSlotsRemain(slots, flag, LIMIT);
    FirstOfEach(Keep(slots, flag), CandidateOf, LIMIT);
    TruncateIsFirstOf(Candidates(rules, draft));
    assert Truncate(Candidates(rules, draft)) + [] == Each(found, CandidateOf);
    SlotsStayApart(doc, found);
    forall s | s in found ensures Settles(path => TargetId(doc, path), CandidateOf, Issuer(doc), s) {
      SlotSettles(doc, s);
    }
    NothingToSettle(path => TargetId(doc, path), CandidateOf, Issuer(doc), found, |found|);
    assert Each(found, Issuer(doc))[..|found|] == Each(found, Issuer(doc));
  }

  // ---------- the exact condition ----------

  /**
   Up to the draft's 200th finding, each text and each field is judged the same way before and after
   normalization.
   */
  predicate JudgedAlike(rules: Rules, raw: Document, doc: Document) {
    AgreeUntil(Slots(doc), Flag(rules, raw), Flag(rules, doc), LIMIT)
  }

  lemma ReportsTellSlots(issue: Slot -> Issue, slots: seq<Slot>, a: seq<Slot>, b: seq<Slot>)
    requires Apart(issue, slots) && (forall s :: s in a ==> s in slots) && (forall s :: s in b ==> s in slots)
    ensures Each(a, issue) == Each(b, issue) <==> a == b
  {
    EachAt(a, issue);
    EachAt(b, issue);
    if Each(a, issue) == Each(b, issue) {
      assert |a| == |Each(a, issue)| == |b|;
      forall k | 0 <= k < |a| ensures a[k] == b[k] {
        assert Each(a, issue)[k] == Each(b, issue)[k];
        assert a[k] in a && b[k] in b;
      }
    }
  }

  lemma FlagsDecide(issue: Slot -> Issue, slots: seq<Slot>, before: Slot -> bool, after: Slot -> bool)
    requires Apart(issue, slots) && NoDup(slots)
    ensures Each(FirstOf(Keep(slots, before), LIMIT), issue) == FirstOf(Listed(slots, after, issue), LIMIT) <==>
              AgreeUntil(slots, before, after, LIMIT)
  {
    FirstSlotsRemain(slots, before, LIMIT);
    FirstSlotsRemain(slots, after, LIMIT);
    KeepAgrees(slots, before, after, LIMIT);
    FirstOfEach(Keep(slots, after), issue, LIMIT);
    ReportsTellSlots(issue, slots, FirstOf(Keep(slots, before), LIMIT), FirstOf(Keep(slots, after), LIMIT));
  }

  /**
   Without model review, the issues stored with a finished draft are exactly what the id-based detector reports on
   the finished document iff the texts are judged alike before and after normalization.
   */
  lemma DetectorsAgreeExactly(rules: Rules, draft: Draft, documentType: string, pages: seq<PageSize>, doc: Document)
    requires DraftAccepted(draft) && Finishes(draft, documentType, pages, doc)
    ensures SameDimensions(draft, doc)
    ensures FinalIssues(rules, draft, doc, []) == Truncate(Issues(rules, doc)) <==>
              JudgedAlike(rules, Drafted(draft, doc), doc)
  {
    FinishedDocumentsKeepDimensions(draft, documentType, pages, doc);
    FinishedIdsAreUnique(draft, documentType, pages, doc);
    FinalIssuesAreTheFlagged(rules, draft, doc);
    IssuesAreTheFlagged(rules, doc);
    TruncateIsFirstOf(Issues(rules, doc));
    SlotsAreDistinct(doc);
    SlotsStayApart(doc, Slots(doc));
    FlagsDecide(Issuer(doc), Slots(doc), Flag(rules, Drafted(draft, doc)), Flag(rules, doc));
  }

  // ---------- normalized drafts ----------

  /** Every text the detectors look at is already normalized. */
  predicate Clean(draft: Draft) {
    && (forall i :: 0 <= i < |draft.fields| ==>
          && Normalize(draft.fields[i].name) == draft.fields[i].name
          && Normalize(draft.fields[i].value) == draft.fields[i].value)
    && (forall i :: 0 <= i < |draft.blocks| ==> Normalize(draft.blocks[i].text) == draft.blocks[i].text)
    && (forall t :: 0 <= t < |draft.tables| ==> CleanRows(draft.tables[t].rows))
  }

  predicate CleanRows(rows: seq<seq<string>>) {
    forall r, c :: 0 <= r < |rows| && 0 <= c < |rows[r]| ==> Normalize(rows[r][c]) == rows[r][c]
  }

  lemma CleanFieldIsMirrored(drafted: DraftField, i: nat, pages: seq<PageSize>, field: Field)
    requires FieldOf(drafted, i, pages) == Ok(field)
    requires Normalize(drafted.name) == drafted.name && Normalize(drafted.value) == drafted.value
    ensures field.name == drafted.name && field.value == drafted.value
  {
  }

  lemma CleanBlockIsMirrored(drafted: DraftBlock, i: nat, pages: seq<PageSize>, block: Block)
    requires BlockOf(drafted, i, pages) == Ok(block) && Normalize(drafted.text) == drafted.text
    ensures block.text == drafted.text
  {
  }

  lemma CleanRowsStay(drafted: DraftTable, t: nat, pages: seq<PageSize>, table: Table)
    requires TableOf(drafted, t, pages) == Ok(table) && CleanRows(drafted.rows)
    ensures SameRows(drafted.rows, table.rows) && DraftedRows(drafted.rows, table.rows) == table.rows
  {
    var rows := DraftedRows(drafted.rows, table.rows);
    forall r | 0 <= r < |rows| ensures rows[r] == table.rows[r] {
      assert rows[r].cells == table.rows[r].cells;
    }
  }

  lemma CleanDraftsStay(draft: Draft, documentType: string, pages: seq<PageSize>, doc: Document)
    requires Clean(draft) && Finishes(draft, documentType, pages, doc) && SameDimensions(draft, doc)
    ensures Drafted(draft, doc) == doc
  {
    var raw := Drafted(draft, doc);
    forall i | 0 <= i < |doc.fields| ensures raw.fields[i] == doc.fields[i] {
      CleanFieldIsMirrored(draft.fields[i], i, pages, doc.fields[i]);
    }
    forall t | 0 <= t < |doc.tables| ensures raw.tables[t] == doc.tables[t] {
      CleanRowsStay(draft.tables[t], t, pages, doc.tables[t]);
    }
    forall i | 0 <= i < |doc.blocks| ensures raw.blocks[i] == doc.blocks[i] {
      CleanBlockIsMirrored(draft.blocks[i], i, pages, doc.blocks[i]);
    }
  }

  /** In particular the detectors agree on every draft whose texts are already normalized. */
  lemma DetectorsAgree(rules: Rules, draft: Draft, documentType: string, pages: seq<PageSize>, doc: Document)
    requires DraftAccepted(draft) && Clean(draft) && Finishes(draft, documentType, pages, doc)
    ensures FinalIssues(rules, draft, doc, []) == Truncate(Issues(rules, doc))
  {
    DetectorsAgreeExactly(rules, draft, documentType, pages, doc);
    CleanDraftsStay(draft, documentType, pages, doc);
  }

  // ---------- a draft on which they differ ----------

  lemma ControlCharactersVanish(s: string)
    requires s == "a\U{0}b"
    ensures Normalize(s) == "a b"
  {
    assert ScrubAll(s) == "a b";
    ScrubbingIsEnough(s);
  }

  lemma OnlyTheDraftIsSuspicious(u: Unicode)
    ensures var suspicious := PythonRules(u).suspicious;
            suspicious("a\U{0}b") && !suspicious("a b") && !suspicious("a")
  {
    assert "a\U{0}b"[1] == '\U{0}';
    assert "a b"[1..] == " b" && " b"[1..] == "b" && "b"[1..] == "";
    assert Compact("b") == "b" && Compact(" b") == "b" && Compact("a b") == "ab";
    assert "a"[1..] == "" && Compact("a") == "a";
  }

  /** One field "a" whose value holds a control character. */
  function ControlDraft(): Draft {
    Draft([DraftField("a", "a\U{0}b", 1, None)], [], [])
  }

  function ControlDocument(documentType: string): Document {
    Document(documentType, [Field(FieldId(0), "a", "a b", 1, None)], [], [])
  }

  lemma FinishedField(f: DraftField, i: nat, pages: seq<PageSize>, name: string, value: string)
    requires f.page <= |pages| && f.region == None
    requires Normalize(f.name) == name != "" && Normalize(f.value) == value != ""
    ensures FieldOf(f, i, pages) == Ok(Field(FieldId(i), name, value, f.page, None))
  {
  }

  lemma ControlDraftIsAccepted()
    ensures DraftAccepted(ControlDraft())
  {
  }

  lemma OneFieldFinishes(f: DraftField, documentType: string, pages: seq<PageSize>, field: Field)
    requires FieldOf(f, 0, pages) == Ok(field)
    ensures Finishes(Draft([f], [], []), documentType, pages, Document(documentType, [field], [], []))
  {
  }

  lemma ControlDraftFinishes(documentType: string, pages: seq<PageSize>)
    requires |pages| >= 1
    ensures Finishes(ControlDraft(), documentType, pages, ControlDocument(documentType))
  {
    var f := ControlDraft().fields[0];
    ControlFieldFinishes(f, pages);
    OneFieldFinishes(f, documentType, pages, ControlDocument(documentType).fields[0]);
  }

  lemma LetterIsFixed(s: string)
    requires s == "a"
    ensures Normalize(s) == s
  {
    NormalizedIsFixed(s);
  }

  lemma ControlFieldFinishes(f: DraftField, pages: seq<PageSize>)
    requires |pages| >= 1 && f == DraftField("a", "a\U{0}b", 1, None)
    ensures FieldOf(f, 0, pages) == Ok(Field(FieldId(0), "a", "a b", 1, None))
  {
    ControlCharactersVanish(f.value);
    LetterIsFixed(f.name);
    FinishedField(f, 0, pages, "a", "a b");
  }

  /**
   The detectors differ on an accepted draft under the rules of the code: the control character is flagged in the
   draft, is replaced by normalization, and is not there to be flagged in the document.
   */
  lemma DetectorsCanDisagree(u: Unicode, documentType: string, pages: seq<PageSize>)
    requires |pages| >= 1
    ensures var rules, draft, doc := PythonRules(u), ControlDraft(), ControlDocument(documentType);
            && DraftAccepted(draft) && DocumentOf(draft, documentType, pages) == Ok(doc)
            && FinalIssues(rules, draft, doc, []) != Truncate(Issues(rules, doc))
  {
    var draft, doc := ControlDraft(), ControlDocument(documentType);
    ControlDraftIsAccepted();
    ControlDraftFinishes(documentType, pages);
    ControlDraftIsJudgedTwice(u, documentType);
    FinishedAndCompared(PythonRules(u), draft, documentType, pages, doc);
  }

  lemma FinishedAndCompared(rules: Rules, draft: Draft, documentType: string, pages: seq<PageSize>, doc: Document)
    requires DraftAccepted(draft) && Finishes(draft, documentType, pages, doc)
    ensures DocumentOf(draft, documentType, pages) == Ok(doc) && SameDimensions(draft, doc)
    ensures FinalIssues(rules, draft, doc, []) == Truncate(Issues(rules, doc)) <==>
              JudgedAlike(rules, Drafted(draft, doc), doc)
  {
    FinishesExactly(draft, documentType, pages, doc);
    DetectorsAgreeExactly(rules, draft, documentType, pages, doc);
  }

  lemma ControlDraftIsJudgedTwice(u: Unicode, documentType: string)
    ensures var doc := ControlDocument(documentType); !JudgedAlike(PythonRules(u), Drafted(ControlDraft(), doc), doc)
  {
    var rules, doc := PythonRules(u), ControlDocument(documentType);
    var raw := Drafted(ControlDraft(), doc);
    OnlyTheDraftIsSuspicious(u);
    var suspect := Slot(FieldAt(0), PossibleGibberish);
    assert FieldSlots(0) == [];
    assert FieldSlots(1) == [Slot(FieldAt(0), DuplicateObservation), suspect];
    assert Slots(doc)[1] == suspect;
    assert |Keep(Slots(doc)[..1], Flag(rules, raw))| <= 1 by {
      assert Slots(doc)[..1] == [Slots(doc)[0]];
      assert Slots(doc)[..1][..0] == [];
    }
    assert Flagged(rules, raw, suspect) && !Flagged(rules, doc, suspect);
  }
}
