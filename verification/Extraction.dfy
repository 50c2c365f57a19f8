/** `finalize_extraction`: a draft becomes a document with ids, and quality issues that name those ids. */
module Extraction {
  import opened Wrappers
  import opened TextNormalization
  import opened ExtractionSchema
  import opened TextRules
  import opened QualityDetectors
  import opened ObservationIds

  datatype PageSize = PageSize(width: nat, height: nat)

  datatype Failure = PageOutside | EmptyText

  // ---------- the document ----------

  /** A region is kept only when it lies on its page. */
  function ValidRegion(region: Option<Region>, page: PageSize): Option<Region> {
    match region
    case None => None
    case Some(r) => if r.x + r.width > page.width || r.y + r.height > page.height then None else region
  }

  /** Converting the first n elements in order; the first failure ends it. */
  function Collect<A, B>(xs: seq<A>, convert: (A, nat) -> Result<B, Failure>, n: nat): Result<seq<B>, Failure>
    requires n <= |xs|
  {
    if n == 0 then Ok([])
    else
      match Collect(xs, convert, n - 1)
      case Err(e) => Err(e)
      case Ok(done) => (match convert(xs[n - 1], n - 1) case Err(e) => Err(e) case Ok(b) => Ok(done + [b]))
  }

  lemma {:induction false} CollectConvertsAll<A, B>(xs: seq<A>, convert: (A, nat) -> Result<B, Failure>, n: nat)
    requires n <= |xs| && Collect(xs, convert, n).Ok?
    ensures |Collect(xs, convert, n).value| == n
    ensures forall i :: 0 <= i < n ==> convert(xs[i], i) == Ok(Collect(xs, convert, n).value[i])
  {
    if n > 0 {
      CollectConvertsAll(xs, convert, n - 1);
    }
  }

  lemma {:induction false} AllConvertedIsCollected<A, B>(
    xs: seq<A>, convert: (A, nat) -> Result<B, Failure>, ys: seq<B>, n: nat)
    requires n <= |xs| == |ys| && forall i :: 0 <= i < |xs| ==> convert(xs[i], i) == Ok(ys[i])
    ensures Collect(xs, convert, n) == Ok(ys[..n])
  {
    if n > 0 {
      AllConvertedIsCollected(xs, convert, ys, n - 1);
      assert ys[..n] == ys[..n - 1] + [ys[n - 1]];
    }
  }

  /** Success converts every element in place, and nothing else is success. */
  lemma CollectExactly<A, B>(xs: seq<A>, convert: (A, nat) -> Result<B, Failure>, ys: seq<B>)
    ensures Collect(xs, convert, |xs|) == Ok(ys) <==>
              |ys| == |xs| && forall i :: 0 <= i < |xs| ==> convert(xs[i], i) == Ok(ys[i])
  {
    if Collect(xs, convert, |xs|) == Ok(ys) {
      CollectConvertsAll(xs, convert, |xs|);
    }
    if |ys| == |xs| && forall i :: 0 <= i < |xs| ==> convert(xs[i], i) == Ok(ys[i]) {
      AllConvertedIsCollected(xs, convert, ys, |xs|);
      assert ys[..|xs|] == ys;
    }
  }

  method CollectAll<A, B>(xs: seq<A>, convert: (A, nat) -> Result<B, Failure>) returns (r: Result<seq<B>, Failure>)
    ensures r == Collect(xs, convert, |xs|)
  {
    var done: seq<B> := [];
    for i := 0 to |xs|
      invariant Collect(xs, convert, i) == Ok(done)
    {
      var converted := convert(xs[i], i);
      if converted.Err? {
        FailureStays(xs, convert, i, |xs|);
        return Err(converted.error);
      }
      done := done + [converted.value];
    }
    return Ok(done);
  }

  lemma {:induction false} FailureStays<A, B>(xs: seq<A>, convert: (A, nat) -> Result<B, Failure>, i: nat, n: nat)
    requires i < n <= |xs| && Collect(xs, convert, i).Ok? && convert(xs[i], i).Err?
    ensures Collect(xs, convert, n) == Err(convert(xs[i], i).error)
  {
    if n > i + 1 {
      FailureStays(xs, convert, i, n - 1);
    }
  }

  function FieldOf(f: DraftField, i: nat, pages: seq<PageSize>): Result<Field, Failure> {
    if f.page > |pages| then Err(PageOutside)
    else if Normalize(f.name) == "" || Normalize(f.value) == "" then Err(EmptyText)
    else Ok(Field(FieldId(i), Normalize(f.name), Normalize(f.value), f.page, ValidRegion(f.region, pages[f.page - 1])))
  }

  function CellsOf(row: seq<string>, t: nat, r: nat): seq<Cell> {
    seq(|row|, c requires 0 <= c < |row| => Cell(CellId(t, r, c), Normalize(row[c])))
  }

  function RowsOf(rows: seq<seq<string>>, t: nat): seq<Row> {
    seq(|rows|, r requires 0 <= r < |rows| => Row(RowId(t, r), CellsOf(rows[r], t, r)))
  }

  function NormalizedAll(texts: seq<string>): seq<string> {
    seq(|texts|, i requires 0 <= i < |texts| => Normalize(texts[i]))
  }

  function NormalizedTitle(title: Option<string>): Option<string> {
    if title.Some? && title.value != "" then Some(Normalize(title.value)) else None
  }

  predicate Ascending(s: seq<int>) {
    forall i, j :: 0 <= i < j < |s| ==> s[i] < s[j]
  }

  function InsertPage(p: int, s: seq<int>): (r: seq<int>)
    requires Ascending(s)
    ensures Ascending(r) && |r| <= |s| + 1
    ensures forall x :: x in r <==> x == p || x in s
  {
    if s == [] || p < s[0] then [p] + s
    else if p == s[0] then s
    else
      var rest := InsertPage(p, s[1..]);
      assert forall x :: x in rest ==> x > s[0] by {
        assert forall x :: x in rest ==> x == p || x in s[1..];
      }
      [s[0]] + rest
  }

  /** `sorted(set(page_numbers))` */
  function SortedPages(pages: Pages): (r: Pages)
    ensures Ascending(r) && |r| <= |pages|
    ensures forall x :: x in r <==> x in pages
  {
    if |pages| == 1 then pages else InsertPage(pages[0], SortedPages(pages[1..]))
  }

  function TableOf(table: DraftTable, t: nat, pages: seq<PageSize>): Result<Table, Failure> {
    if exists p :: p in table.pages && p > |pages| then Err(PageOutside)
    else
      Ok(Table(TableId(t), NormalizedTitle(table.title), NormalizedAll(table.headers), RowsOf(table.rows, t),
               SortedPages(table.pages)))
  }

  function BlockOf(b: DraftBlock, i: nat, pages: seq<PageSize>): Result<Block, Failure>
  {
    if b.page > |pages| then Err(PageOutside)
    else if Normalize(b.text) == "" then Err(EmptyText)
    else Ok(Block(BlockId(i), Normalize(b.text), b.page, ValidRegion(b.region, pages[b.page - 1])))
  }

  function Fields(draft: Draft, pages: seq<PageSize>): Result<seq<Field>, Failure> {
    Collect(draft.fields, (f, i) => FieldOf(f, i, pages), |draft.fields|)
  }

  function Tables(draft: Draft, pages: seq<PageSize>): Result<seq<Table>, Failure> {
    Collect(draft.tables, (t, i) => TableOf(t, i, pages), |draft.tables|)
  }

  function Blocks(draft: Draft, pages: seq<PageSize>): Result<seq<Block>, Failure> {
    Collect(draft.blocks, (b, i) => BlockOf(b, i, pages), |draft.blocks|)
  }

  function DocumentOf(draft: Draft, documentType: string, pages: seq<PageSize>): Result<Document, Failure> {
    match Fields(draft, pages)
    case Err(e) => Err(e)
    case Ok(fields) =>
      match Tables(draft, pages)
      case Err(e) => Err(e)
      case Ok(tables) =>
        match Blocks(draft, pages)
        case Err(e) => Err(e)
        case Ok(blocks) => Ok(Document(documentType, fields, tables, blocks))
  }

  predicate FieldsFinish(drafted: seq<DraftField>, pages: seq<PageSize>, fields: seq<Field>) {
    |fields| == |drafted| && forall i :: 0 <= i < |drafted| ==> FieldOf(drafted[i], i, pages) == Ok(fields[i])
  }

  predicate TablesFinish(drafted: seq<DraftTable>, pages: seq<PageSize>, tables: seq<Table>) {
    |tables| == |drafted| && forall i :: 0 <= i < |drafted| ==> TableOf(drafted[i], i, pages) == Ok(tables[i])
  }

  predicate BlocksFinish(drafted: seq<DraftBlock>, pages: seq<PageSize>, blocks: seq<Block>) {
    |blocks| == |drafted| && forall i :: 0 <= i < |drafted| ==> BlockOf(drafted[i], i, pages) == Ok(blocks[i])
  }

  /** The document shows every observation of the draft, finished in place. */
  predicate Finishes(draft: Draft, documentType: string, pages: seq<PageSize>, doc: Document) {
    && doc.documentType == documentType
    && FieldsFinish(draft.fields, pages, doc.fields)
    && TablesFinish(draft.tables, pages, doc.tables)
    && BlocksFinish(draft.blocks, pages, doc.blocks)
  }

  lemma FieldsFinishExactly(draft: Draft, pages: seq<PageSize>, fields: seq<Field>)
    ensures Fields(draft, pages) == Ok(fields) <==> FieldsFinish(draft.fields, pages, fields)
  {
    CollectExactly(draft.fields, (f, i) => FieldOf(f, i, pages), fields);
  }

  lemma TablesFinishExactly(draft: Draft, pages: seq<PageSize>, tables: seq<Table>)
    ensures Tables(draft, pages) == Ok(tables) <==> TablesFinish(draft.tables, pages, tables)
  {
    CollectExactly(draft.tables, (t, i) => TableOf(t, i, pages), tables);
  }

  lemma BlocksFinishExactly(draft: Draft, pages: seq<PageSize>, blocks: seq<Block>)
    ensures Blocks(draft, pages) == Ok(blocks) <==> BlocksFinish(draft.blocks, pages, blocks)
  {
    CollectExactly(draft.blocks, (b, i) => BlockOf(b, i, pages), blocks);
  }

  lemma DocumentParts(draft: Draft, documentType: string, pages: seq<PageSize>, doc: Document)
    ensures DocumentOf(draft, documentType, pages) == Ok(doc) <==>
              && doc.documentType == documentType && Fields(draft, pages) == Ok(doc.fields)
              && Tables(draft, pages) == Ok(doc.tables) && Blocks(draft, pages) == Ok(doc.blocks)
  {
  }

  /** A draft is finished as exactly the document that shows every observation, or not at all. */
  lemma FinishesExactly(draft: Draft, documentType: string, pages: seq<PageSize>, doc: Document)
    ensures DocumentOf(draft, documentType, pages) == Ok(doc) <==> Finishes(draft, documentType, pages, doc)
  {
    DocumentParts(draft, documentType, pages, doc);
    FieldsFinishExactly(draft, pages, doc.fields);
    TablesFinishExactly(draft, pages, doc.tables);
    BlocksFinishExactly(draft, pages, doc.blocks);
  }

  // ---------- the issues ----------

  function IssueKeys(issues: seq<Issue>): set<(string, Code)> {
    set i | 0 <= i < |issues| :: (issues[i].target, issues[i].code)
  }

  /** The issues after the first n candidates: unresolvable paths and repeated (target, code) pairs are dropped. */
  function Settled(resolve: string -> Option<string>, candidates: seq<Candidate>, n: nat): seq<Issue>
    requires n <= |candidates|
  {
    if n == 0 then []
    else
      var before, c := Settled(resolve, candidates, n - 1), candidates[n - 1];
      match resolve(c.path)
      case None => before
      case Some(id) =>
        if (id, c.code) in IssueKeys(before) then before else before + [Issue(id, c.code, c.message, c.suggested)]
  }

  function FinalIssues(rules: Rules, draft: Draft, doc: Document, review: seq<Candidate>): seq<Issue> {
    var candidates := Truncate(Candidates(rules, draft)) + review;
    Truncate(Settled(path => TargetId(doc, path), candidates, |candidates|))
  }

  // ---------- the code ----------

  method FinalizeExtraction(
      rules: Rules, draft: Draft, documentType: string, pages: seq<PageSize>, review: seq<Candidate>)
    returns (r: Result<(Document, seq<Issue>), Failure>)
    ensures r.Err? <==> DocumentOf(draft, documentType, pages).Err?
    ensures r.Err? ==> r.error == DocumentOf(draft, documentType, pages).error
    ensures r.Ok? ==>
              && Ok(r.value.0) == DocumentOf(draft, documentType, pages)
              && Finishes(draft, documentType, pages, r.value.0)
              && r.value.1 == FinalIssues(rules, draft, r.value.0, review)
  {
    var fields := CollectAll(draft.fields, (f, i) => FieldOf(f, i, pages));
    assert fields == Fields(draft, pages);
    if fields.Err? {
      return Err(fields.error);
    }
    var tables := CollectAll(draft.tables, (t, i) => TableOf(t, i, pages));
    assert tables == Tables(draft, pages);
    if tables.Err? {
      return Err(tables.error);
    }
    var blocks := CollectAll(draft.blocks, (b, i) => BlockOf(b, i, pages));
    assert blocks == Blocks(draft, pages);
    if blocks.Err? {
      return Err(blocks.error);
    }
    var document := Document(documentType, fields.value, tables.value, blocks.value);
    FinishesExactly(draft, documentType, pages, document);
    var deterministic := DeterministicQualityCandidates(rules, draft);
    var issues := SettleIssues(path => TargetId(document, path), deterministic + review);
    return Ok((document, Truncate(issues)));
  }

  method SettleIssues(resolve: string -> Option<string>, candidates: seq<Candidate>) returns (issues: seq<Issue>)
    ensures issues == Settled(resolve, candidates, |candidates|) && |issues| <= |candidates|
  {
    issues := [];
    var seen: set<(string, Code)> := {};
    for i := 0 to |candidates|
      invariant issues == Settled(resolve, candidates, i) && |issues| <= i
      invariant seen == IssueKeys(issues)
    {
      var candidate := candidates[i];
      var id := resolve(candidate.path);
      if id.None? || (id.value, candidate.code) in seen {
        continue;
      }
      var issue := Issue(id.value, candidate.code, candidate.message, candidate.suggested);
      KeysGrow(issues, issue);
      seen := seen + {(id.value, candidate.code)};
      issues := issues + [issue];
    }
  }

  lemma KeysGrow(issues: seq<Issue>, issue: Issue)
    ensures IssueKeys(issues + [issue]) == IssueKeys(issues) + {(issue.target, issue.code)}
  {
    var more := issues + [issue];
    forall key | key in IssueKeys(issues) ensures key in IssueKeys(more) {
      var i :| 0 <= i < |issues| && key == (issues[i].target, issues[i].code);
      assert more[i] == issues[i];
    }
    assert more[|issues|] == issue;
  }
}
