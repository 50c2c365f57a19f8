/** What finishing a draft makes of each observation, which observation fails it, and which findings it keeps. */
module FinishTheorems {
  import opened Wrappers
  import opened TextNormalization
  import opened Decimal
  import opened ExtractionSchema
  import opened QualityDetectors
  import opened ObservationIds
  import opened Extraction
  import opened Sequences

  // ---------- observations ----------

  /** A region is kept exactly when it lies within its page. */
  predicate KeptRegion(drafted: Option<Region>, page: PageSize, kept: Option<Region>) {
    && (kept.Some? <==>
          && drafted.Some?
          && drafted.value.x + drafted.value.width <= page.width && drafted.value.y + drafted.value.height <= page.height)
    && (kept.Some? ==> kept == drafted)
  }

  predicate IsFinishedField(drafted: DraftField, i: nat, pages: seq<PageSize>, field: Field) {
    && field.id == FieldId(i) && field.page == drafted.page <= |pages|
    && field.name == Normalize(drafted.name) != "" && field.value == Normalize(drafted.value) != ""
    && KeptRegion(drafted.region, pages[drafted.page - 1], field.region)
  }

  predicate IsFinishedBlock(drafted: DraftBlock, i: nat, pages: seq<PageSize>, block: Block) {
    && block.id == BlockId(i) && block.page == drafted.page <= |pages|
    && block.text == Normalize(drafted.text) != ""
    && KeptRegion(drafted.region, pages[drafted.page - 1], block.region)
  }

  predicate IsFinishedRow(drafted: seq<string>, t: nat, r: nat, row: Row) {
    && row.id == RowId(t, r) && |row.cells| == |drafted|
    && forall c :: 0 <= c < |drafted| ==> row.cells[c].id == CellId(t, r, c) && row.cells[c].value == Normalize(drafted[c])
  }

  /** A table keeps its headers, rows and title, unless that is empty, and lists its pages once each in order. */
  ghost predicate IsFinishedTable(drafted: DraftTable, t: nat, pages: seq<PageSize>, table: Table) {
    && table.id == TableId(t)
    && (table.title.None? <==> drafted.title.None? || drafted.title.value == "")
    && (table.title.Some? ==> table.title.value == Normalize(drafted.title.value))
    && |table.headers| == |drafted.headers|
    && (forall c :: 0 <= c < |drafted.headers| ==> table.headers[c] == Normalize(drafted.headers[c]))
    && |table.rows| == |drafted.rows|
    && (forall r :: 0 <= r < |drafted.rows| ==> IsFinishedRow(drafted.rows[r], t, r, table.rows[r]))
    && (forall i, j :: 0 <= i < j < |table.pages| ==> table.pages[i] < table.pages[j])
    && (forall p :: p in table.pages <==> p in drafted.pages) && (forall p :: p in drafted.pages ==> p <= |pages|)
  }

  lemma FieldsAreFinished(drafted: DraftField, i: nat, pages: seq<PageSize>, field: Field)
    ensures FieldOf(drafted, i, pages) == Ok(field) <==> IsFinishedField(drafted, i, pages, field)
  {
  }

  lemma BlocksAreFinished(drafted: DraftBlock, i: nat, pages: seq<PageSize>, block: Block)
    ensures BlockOf(drafted, i, pages) == Ok(block) <==> IsFinishedBlock(drafted, i, pages, block)
  {
  }

  lemma RowsAreFinished(drafted: seq<string>, t: nat, r: nat, row: Row)
    ensures row == Row(RowId(t, r), CellsOf(drafted, t, r)) <==> IsFinishedRow(drafted, t, r, row)
  {
    var cells := CellsOf(drafted, t, r);
    if IsFinishedRow(drafted, t, r, row) {
      forall c | 0 <= c < |drafted| ensures row.cells[c] == cells[c] {
      }
      assert row.cells == cells;
    }
  }

  lemma AllRowsAreFinished(drafted: seq<seq<string>>, t: nat, rows: seq<Row>)
    ensures rows == RowsOf(drafted, t) <==>
              |rows| == |drafted| && forall r :: 0 <= r < |drafted| ==> IsFinishedRow(drafted[r], t, r, rows[r])
  {
    var all := RowsOf(drafted, t);
    forall r | 0 <= r < |drafted| ensures IsFinishedRow(drafted[r], t, r, all[r]) {
      RowsAreFinished(drafted[r], t, r, all[r]);
    }
    if |rows| == |drafted| && forall r :: 0 <= r < |drafted| ==> IsFinishedRow(drafted[r], t, r, rows[r]) {
      forall r | 0 <= r < |drafted| ensures rows[r] == all[r] {
        RowsAreFinished(drafted[r], t, r, rows[r]);
      }
      assert rows == all;
    }
  }

  /** There is only one ascending list of a set of pages. */
  lemma {:induction false} AscendingIsUnique(a: seq<int>, b: seq<int>)
    requires Extraction.Ascending(a) && Extraction.Ascending(b) && forall p :: p in a <==> p in b
    ensures a == b
  {
    if a == [] {
      assert forall i :: 0 <= i < |b| ==> b[i] in b;
    } else {
      assert a[0] in b && b != [] && b[0] in a;
      assert a[0] == b[0];
      forall p ensures p in a[1..] <==> p in b[1..] {
        assert p in a[1..] <==> p in a && p != a[0];
        assert p in b[1..] <==> p in b && p != b[0];
      }
      AscendingIsUnique(a[1..], b[1..]);
    }
  }

  lemma TablesAreFinished(drafted: DraftTable, t: nat, pages: seq<PageSize>, table: Table)
    ensures TableOf(drafted, t, pages) == Ok(table) <==> IsFinishedTable(drafted, t, pages, table)
  {
    AllRowsAreFinished(drafted.rows, t, table.rows);
    TitleAndHeadersAreFinished(drafted, table);
    if IsFinishedTable(drafted, t, pages, table) {
      AscendingIsUnique(table.pages, SortedPages(drafted.pages));
    }
  }

  lemma TitleAndHeadersAreFinished(drafted: DraftTable, table: Table)
    ensures table.title == NormalizedTitle(drafted.title) <==>
              && (table.title.None? <==> drafted.title.None? || drafted.title.value == "")
              && (table.title.Some? ==> table.title.value == Normalize(drafted.title.value))
    ensures table.headers == NormalizedAll(drafted.headers) <==>
              && |table.headers| == |drafted.headers|
              && forall c :: 0 <= c < |drafted.headers| ==> table.headers[c] == Normalize(drafted.headers[c])
  {
  }

  /** Every observation of the draft, finished in its place. */
  ghost predicate IsFinished(draft: Draft, documentType: string, pages: seq<PageSize>, doc: Document) {
    && doc.documentType == documentType
    && |doc.fields| == |draft.fields| && |doc.tables| == |draft.tables| && |doc.blocks| == |draft.blocks|
    && (forall i :: 0 <= i < |doc.fields| ==> IsFinishedField(draft.fields[i], i, pages, doc.fields[i]))
    && (forall t :: 0 <= t < |doc.tables| ==> IsFinishedTable(draft.tables[t], t, pages, doc.tables[t]))
    && (forall i :: 0 <= i < |doc.blocks| ==> IsFinishedBlock(draft.blocks[i], i, pages, doc.blocks[i]))
  }

  lemma PartsAreFinished(draft: Draft, pages: seq<PageSize>, doc: Document)
    ensures FieldsFinish(draft.fields, pages, doc.fields) <==>
              && |doc.fields| == |draft.fields|
              && forall i :: 0 <= i < |doc.fields| ==> IsFinishedField(draft.fields[i], i, pages, doc.fields[i])
    ensures BlocksFinish(draft.blocks, pages, doc.blocks) <==>
              && |doc.blocks| == |draft.blocks|
              && forall i :: 0 <= i < |doc.blocks| ==> IsFinishedBlock(draft.blocks[i], i, pages, doc.blocks[i])
    ensures TablesFinish(draft.tables, pages, doc.tables) <==>
              && |doc.tables| == |draft.tables|
              && forall t :: 0 <= t < |doc.tables| ==> IsFinishedTable(draft.tables[t], t, pages, doc.tables[t])
  {
    forall f, i, field ensures FieldOf(f, i, pages) == Ok(field) <==> IsFinishedField(f, i, pages, field) {
      FieldsAreFinished(f, i, pages, field);
    }
    forall b, i, block ensures BlockOf(b, i, pages) == Ok(block) <==> IsFinishedBlock(b, i, pages, block) {
      BlocksAreFinished(b, i, pages, block);
    }
    forall d, t, table ensures TableOf(d, t, pages) == Ok(table) <==> IsFinishedTable(d, t, pages, table) {
      TablesAreFinished(d, t, pages, table);
    }
  }

  /** Finishing succeeds with exactly the document in which every observation is finished in its place. */
  lemma FinishedDocumentIsExact(draft: Draft, documentType: string, pages: seq<PageSize>, doc: Document)
    ensures DocumentOf(draft, documentType, pages) == Ok(doc) <==> IsFinished(draft, documentType, pages, doc)
  {
    FinishesExactly(draft, documentType, pages, doc);
    PartsAreFinished(draft, pages, doc);
  }

  /** Digits of at least this many places that read as the number. */
  predicate Counts(digits: string, n: nat, places: nat) {
    |digits| >= places && AllDigits(digits) && Parse(digits) == n && (|digits| > places ==> digits[0] != '0')
  }

  lemma PaddedCounts(n: nat)
    ensures Counts(Pad4(n), n, 4)
  {
    ParsePad4(n);
    Pad4Length(n);
    ParseRender(n);
    RenderLength(n);
  }

  /** Ids count from one, in four digits or more, behind the name of their kind. */
  lemma IdsCountFromOne(i: nat)
    ensures FieldId(i)[..6] == "field-" && Counts(FieldId(i)[6..], i + 1, 4)
    ensures TableId(i)[..6] == "table-" && Counts(TableId(i)[6..], i + 1, 4)
    ensures BlockId(i)[..5] == "text-" && Counts(BlockId(i)[5..], i + 1, 4)
  {
    PaddedCounts(i + 1);
    assert FieldId(i)[6..] == Pad4(i + 1) && TableId(i)[6..] == Pad4(i + 1) && BlockId(i)[5..] == Pad4(i + 1);
  }

  /** Rows and cells are counted within their table. */
  lemma CellIdsCountFromOne(t: nat, r: nat, c: nat)
    ensures exists digits :: Counts(digits, r + 1, 4) && RowId(t, r) == TableId(t) + "-row-" + digits
    ensures exists digits, more ::
              Counts(digits, r + 1, 4) && Counts(more, c + 1, 4) && CellId(t, r, c) == TableId(t) + "-r" + digits + "-c" + more
  {
    PaddedCounts(r + 1);
    PaddedCounts(c + 1);
    var digits, more := Pad4(r + 1), Pad4(c + 1);
    assert RowId(t, r) == TableId(t) + "-row-" + digits;
    assert CellId(t, r, c) == TableId(t) + "-r" + digits + "-c" + more;
  }

  // ---------- failures ----------

  /** Why a field cannot be finished: its page is outside, or else nothing is left of its name or value. */
  predicate FieldOffends(fields: seq<DraftField>, pages: seq<PageSize>, i: nat, failure: Failure) {
    && i < |fields|
    && if fields[i].page > |pages| then failure.PageOutside?
       else failure.EmptyText? && (Normalize(fields[i].name) == "" || Normalize(fields[i].value) == "")
  }

  predicate TableOffends(tables: seq<DraftTable>, pages: seq<PageSize>, t: nat, failure: Failure) {
    t < |tables| && failure.PageOutside? && exists page :: page in tables[t].pages && page > |pages|
  }

  predicate BlockOffends(blocks: seq<DraftBlock>, pages: seq<PageSize>, i: nat, failure: Failure) {
    && i < |blocks|
    && if blocks[i].page > |pages| then failure.PageOutside?
       else failure.EmptyText? && Normalize(blocks[i].text) == ""
  }

  lemma {:induction false} CollectFailsAtTheFirst<A, B>(xs: seq<A>, convert: (A, nat) -> Result<B, Failure>, n: nat)
    requires n <= |xs|
    ensures Collect(xs, convert, n).Ok? <==> forall i :: 0 <= i < n ==> convert(xs[i], i).Ok?
    ensures Collect(xs, convert, n).Err? ==>
              exists i :: 0 <= i < n && convert(xs[i], i) == Err(Collect(xs, convert, n).error)
                       && forall j :: 0 <= j < i ==> convert(xs[j], j).Ok?
  {
    if n > 0 {
      CollectFailsAtTheFirst(xs, convert, n - 1);
    }
  }

  function FieldOffences(draft: Draft, pages: seq<PageSize>): (nat, Failure) -> bool {
    (i: nat, failure: Failure) => FieldOffends(draft.fields, pages, i, failure)
  }

  function TableOffences(draft: Draft, pages: seq<PageSize>): (nat, Failure) -> bool {
    (t: nat, failure: Failure) => TableOffends(draft.tables, pages, t, failure)
  }

  function BlockOffences(draft: Draft, pages: seq<PageSize>): (nat, Failure) -> bool {
    (i: nat, failure: Failure) => BlockOffends(draft.blocks, pages, i, failure)
  }

  ghost predicate NoneOffends(offends: (nat, Failure) -> bool) {
    forall i, failure :: !offends(i, failure)
  }

  /** The i-th offends with this failure, and none before it offends. */
  ghost predicate OffendsFirst(offends: (nat, Failure) -> bool, i: nat, failure: Failure) {
    offends(i, failure) && forall j, other :: offends(j, other) ==> i <= j
  }

  lemma FirstOffender<A, B>(xs: seq<A>, convert: (A, nat) -> Result<B, Failure>, offends: (nat, Failure) -> bool)
    requires forall i, e :: 0 <= i < |xs| ==> (offends(i, e) <==> convert(xs[i], i) == Err(e))
    requires forall i, e :: i >= |xs| ==> !offends(i, e)
    ensures Collect(xs, convert, |xs|).Ok? <==> NoneOffends(offends)
    ensures Collect(xs, convert, |xs|).Err? ==>
              exists i :: OffendsFirst(offends, i, Collect(xs, convert, |xs|).error)
  {
    CollectFailsAtTheFirst(xs, convert, |xs|);
    if Collect(xs, convert, |xs|).Err? {
      var i :| 0 <= i < |xs| && convert(xs[i], i) == Err(Collect(xs, convert, |xs|).error)
               && forall j :: 0 <= j < i ==> convert(xs[j], j).Ok?;
      assert OffendsFirst(offends, i, Collect(xs, convert, |xs|).error);
    } else {
      assert forall i :: 0 <= i < |xs| ==> convert(xs[i], i).Ok?;
    }
  }

  lemma FieldsFailAtTheFirst(draft: Draft, pages: seq<PageSize>)
    ensures var fields, offends := Fields(draft, pages), FieldOffences(draft, pages);
            && (fields.Ok? <==> NoneOffends(offends))
            && (fields.Err? ==> exists i :: OffendsFirst(offends, i, fields.error))
  {
    FirstOffender(draft.fields, (f, i) => FieldOf(f, i, pages), FieldOffences(draft, pages));
  }

  lemma TablesFailAtTheFirst(draft: Draft, pages: seq<PageSize>)
    ensures var tables, offends := Extraction.Tables(draft, pages), TableOffences(draft, pages);
            && (tables.Ok? <==> NoneOffends(offends))
            && (tables.Err? ==> exists t :: OffendsFirst(offends, t, tables.error))
  {
    FirstOffender(draft.tables, (d, t) => TableOf(d, t, pages), TableOffences(draft, pages));
  }

  lemma BlocksFailAtTheFirst(draft: Draft, pages: seq<PageSize>)
    ensures var blocks, offends := Blocks(draft, pages), BlockOffences(draft, pages);
            && (blocks.Ok? <==> NoneOffends(offends))
            && (blocks.Err? ==> exists i :: OffendsFirst(offends, i, blocks.error))
  {
    FirstOffender(draft.blocks, (b, i) => BlockOf(b, i, pages), BlockOffences(draft, pages));
  }

  /** The failure is that of the first offending observation: fields first, then tables, then text blocks. */
  lemma FailsAtTheFirst(draft: Draft, documentType: string, pages: seq<PageSize>)
    ensures var result := DocumentOf(draft, documentType, pages);
            var field, table, block :=
              FieldOffences(draft, pages), TableOffences(draft, pages), BlockOffences(draft, pages);
            && (result.Ok? <==> NoneOffends(field) && NoneOffends(table) && NoneOffends(block))
            && (result.Err? ==>
                  || (exists i :: OffendsFirst(field, i, result.error))
                  || (NoneOffends(field) && exists t :: OffendsFirst(table, t, result.error))
                  || (NoneOffends(field) && NoneOffends(table) && exists i :: OffendsFirst(block, i, result.error)))
  {
    FieldsFailAtTheFirst(draft, pages);
    TablesFailAtTheFirst(draft, pages);
    BlocksFailAtTheFirst(draft, pages);
  }

  // ---------- findings ----------

  /** One of the first i candidates names the same observation with the same code. */
  predicate NamedEarlier(resolve: string -> Option<string>, candidates: seq<Candidate>, i: nat, id: string, code: Code)
    requires i <= |candidates|
  {
    exists j :: 0 <= j < i && resolve(candidates[j].path) == Some(id) && candidates[j].code == code
  }

  /** The issue repeats candidate i, the first to name its observation with its code. */
  predicate IsSettled(resolve: string -> Option<string>, candidates: seq<Candidate>, i: nat, issue: Issue) {
    && i < |candidates| && resolve(candidates[i].path) == Some(issue.target)
    && issue.code == candidates[i].code && issue.message == candidates[i].message
    && issue.suggested == candidates[i].suggested
    && !NamedEarlier(resolve, candidates, i, issue.target, issue.code)
  }

  /** Candidate i names nothing, or what an earlier one names with the same code. */
  predicate IsDropped(resolve: string -> Option<string>, candidates: seq<Candidate>, i: nat) {
    && i < |candidates|
    && var id := resolve(candidates[i].path);
       id.Some? ==> NamedEarlier(resolve, candidates, i, id.value, candidates[i].code)
  }

  lemma {:induction false} SettledKeys(resolve: string -> Option<string>, candidates: seq<Candidate>, n: nat)
    requires n <= |candidates|
    ensures forall id, code :: (id, code) in IssueKeys(Settled(resolve, candidates, n)) <==>
                                 NamedEarlier(resolve, candidates, n, id, code)
  {
    if n > 0 {
      SettledKeys(resolve, candidates, n - 1);
      var before, c := Settled(resolve, candidates, n - 1), candidates[n - 1];
      if resolve(c.path).Some? {
        KeysGrow(before, Issue(resolve(c.path).value, c.code, c.message, c.suggested));
      }
      forall id, code
        ensures NamedEarlier(resolve, candidates, n, id, code) <==>
                  || NamedEarlier(resolve, candidates, n - 1, id, code)
                  || (resolve(c.path) == Some(id) && c.code == code)
      {
      }
    }
  }

  /**
   The issues are exactly the candidates that name something, the first of each observation and code, in order and with
   their own words; `from` tells which candidate each one comes from.
   */
  lemma {:induction false} SettledInOrder(resolve: string -> Option<string>, candidates: seq<Candidate>, n: nat)
    returns (from: seq<nat>)
    requires n <= |candidates|
    ensures Drawn(n, Settled(resolve, candidates, n), from,
                  (i: nat, k: nat, issue: Issue) => IsSettled(resolve, candidates, i, issue),
                  (i: nat) => IsDropped(resolve, candidates, i))
  {
    if n == 0 {
      from := [];
    } else {
      var made := (i: nat, k: nat, issue: Issue) => IsSettled(resolve, candidates, i, issue);
      var dropped := (i: nat) => IsDropped(resolve, candidates, i);
      var before := SettledInOrder(resolve, candidates, n - 1);
      SettledKeys(resolve, candidates, n - 1);
      from := DrawnGrows(n - 1, Settled(resolve, candidates, n - 1), Settled(resolve, candidates, n), before, made, dropped);
    }
  }
}
