/** From a draft to what is stored, read back and exported. */
module Pipeline {
  import opened Wrappers
  import opened TextNormalization
  import opened Decimal
  import opened ExtractionSchema
  import opened TextRules
  import opened QualityDetectors
  import opened ObservationIds
  import opened Extraction
  import opened ExtractionTheorems
  import opened Sequences
  import opened Presentation
  import opened PresentationTheorems
  import opened PresentationStorage
  import opened DocumentJson
  import opened StoredExtraction
  import opened StoredExtractionTheorems

  // ---------- a finished document is within the schema's bounds ----------

  lemma FieldIdsFit(i: nat)
    requires i < 9999
    ensures IsFieldId(FieldId(i))
  {
    Pad4Length(i + 1);
    assert FieldId(i)[6..] == Pad4(i + 1);
  }

  lemma BlockIdsFit(i: nat)
    requires i < 9999
    ensures IsBlockId(BlockId(i))
  {
    Pad4Length(i + 1);
    assert BlockId(i)[5..] == Pad4(i + 1);
  }

  lemma TableIdsFit(t: nat)
    requires t < 9999
    ensures IsTableId(TableId(t)) && |TableId(t)| == 10
  {
    Pad4Length(t + 1);
    assert TableId(t)[6..] == Pad4(t + 1);
  }

  lemma RowIdsFit(t: nat, r: nat)
    requires t < 9999 && r < 9999
    ensures IsRowId(RowId(t, r))
  {
    TableIdsFit(t);
    Pad4Length(r + 1);
    var id := RowId(t, r);
    assert id == TableId(t) + ("-row-" + Pad4(r + 1));
    assert id[..10] == TableId(t) && id[10..15] == "-row-" && id[15..] == Pad4(r + 1);
  }

  lemma CellIdsFit(t: nat, r: nat, c: nat)
    requires t < 9999 && r < 9999 && c < 9999
    ensures IsCellId(CellId(t, r, c))
  {
    TableIdsFit(t);
    CellShape(t, r, c);
    Pad4Length(r + 1);
    Pad4Length(c + 1);
    var id := CellId(t, r, c);
    assert id == TableId(t) + ("-r" + (Pad4(r + 1) + ("-c" + Pad4(c + 1))));
    assert id[..10] == TableId(t) && id[10..12] == "-r" && id[16..18] == "-c";
  }

  lemma FieldsFit(f: DraftField, i: nat, pages: seq<PageSize>)
    requires 1 <= |f.name| <= 500 && 1 <= |f.value| <= 20000 && RegionAccepted(f.region)
    requires i < 2000 && FieldOf(f, i, pages).Ok?
    ensures ValidField(FieldOf(f, i, pages).value)
  {
    FieldIdsFit(i);
    NormalizeShortens(f.name);
    NormalizeShortens(f.value);
  }

  lemma BlocksFit(b: DraftBlock, i: nat, pages: seq<PageSize>)
    requires 1 <= |b.text| <= 50000 && RegionAccepted(b.region)
    requires i < 500 && BlockOf(b, i, pages).Ok?
    ensures ValidBlock(BlockOf(b, i, pages).value)
  {
    BlockIdsFit(i);
    NormalizeShortens(b.text);
  }

  lemma RowsFit(row: seq<string>, t: nat, r: nat)
    requires t < 100 && r < 5000 && 1 <= |row| <= 100 && RowAccepted(row)
    ensures ValidRow(Row(RowId(t, r), CellsOf(row, t, r)))
  {
    RowIdsFit(t, r);
    forall c | 0 <= c < |row| ensures ValidCell(CellsOf(row, t, r)[c]) {
      CellIdsFit(t, r, c);
      assert row[c] in row;
      NormalizeShortens(row[c]);
    }
  }

  lemma TablesFit(table: DraftTable, t: nat, pages: seq<PageSize>)
    requires TableAccepted(table) && t < 100 && TableOf(table, t, pages).Ok?
    ensures ValidTable(TableOf(table, t, pages).value)
  {
    TableIdsFit(t);
    if table.title.Some? {
      NormalizeShortens(table.title.value);
    }
    forall r | 0 <= r < |table.rows| ensures ValidRow(RowsOf(table.rows, t)[r]) {
      assert table.rows[r] in table.rows;
      RowsFit(table.rows[r], t, r);
    }
  }

  lemma AllFieldsFit(drafted: seq<DraftField>, pages: seq<PageSize>, fields: seq<Field>)
    requires FieldsFinish(drafted, pages, fields) && |drafted| <= 2000
    requires forall f :: f in drafted ==> 1 <= |f.name| <= 500 && 1 <= |f.value| <= 20000 && RegionAccepted(f.region)
    ensures forall i :: 0 <= i < |fields| ==> ValidField(fields[i])
  {
    forall i | 0 <= i < |fields| ensures ValidField(fields[i]) {
      assert drafted[i] in drafted;
      FieldsFit(drafted[i], i, pages);
    }
  }

  lemma AllTablesFit(drafted: seq<DraftTable>, pages: seq<PageSize>, tables: seq<Table>)
    requires TablesFinish(drafted, pages, tables) && |drafted| <= 100 && forall t :: t in drafted ==> TableAccepted(t)
    ensures forall t :: 0 <= t < |tables| ==> ValidTable(tables[t])
  {
    forall t | 0 <= t < |tables| ensures ValidTable(tables[t]) {
      assert drafted[t] in drafted;
      TablesFit(drafted[t], t, pages);
    }
  }

  lemma AllBlocksFit(drafted: seq<DraftBlock>, pages: seq<PageSize>, blocks: seq<Block>)
    requires BlocksFinish(drafted, pages, blocks) && |drafted| <= 500
    requires forall b :: b in drafted ==> 1 <= |b.text| <= 50000 && RegionAccepted(b.region)
    ensures forall i :: 0 <= i < |blocks| ==> ValidBlock(blocks[i])
  {
    forall i | 0 <= i < |blocks| ensures ValidBlock(blocks[i]) {
      assert drafted[i] in drafted;
      BlocksFit(drafted[i], i, pages);
    }
  }

  lemma FinishedDocumentsAreValid(draft: Draft, documentType: string, pages: seq<PageSize>, doc: Document)
    requires DraftAccepted(draft) && Sized(documentType, 1, 100) && Finishes(draft, documentType, pages, doc)
    ensures Valid(doc)
  {
    AllFieldsFit(draft.fields, pages, doc.fields);
    AllTablesFit(draft.tables, pages, doc.tables);
    AllBlocksFit(draft.blocks, pages, doc.blocks);
  }

  // ---------- the stored result ----------

  lemma RemovalStaysValid(doc: Document, removed: set<string>)
    requires Valid(doc)
    ensures Valid(WithoutBlocks(doc, removed))
  {
    var keeps := (b: Block) => b.id !in removed;
    KeepMembers(doc.blocks, keeps);
    KeptWhole(doc.blocks, keeps);
    forall i | 0 <= i < |Keep(doc.blocks, keeps)| ensures ValidBlock(Keep(doc.blocks, keeps)[i]) {
      assert Keep(doc.blocks, keeps)[i] in doc.blocks;
    }
  }

  /** What the worker stores for a draft: document, presentation and issues after removal of boilerplate. */
  function StoredResult(
      rules: Rules, draft: Draft, doc: Document, review: seq<Candidate>, drafted: Option<seq<DraftSection>>)
    : (Document, Presentation, seq<Issue>)
  {
    Removed(rules, doc, FinalPresentation(doc, drafted), FinalIssues(rules, draft, doc, review))
  }

  lemma IssuesAreLive(rules: Rules, draft: Draft, doc: Document, review: seq<Candidate>)
    ensures forall issue :: issue in FinalIssues(rules, draft, doc, review) ==> Live(doc, issue.target)
  {
    var candidates := Truncate(Candidates(rules, draft)) + review;
    IssuesAreLiveAndDistinct(doc, candidates, |candidates|);
  }

  /**
   For every accepted draft, whatever a model reviews and groups: the stored document is valid, has unique ids and no
   boilerplate, its sections list every observation exactly once, and its issues name values it has.
   */
  lemma StoredResultIsSound(
    rules: Rules, draft: Draft, documentType: string, pages: seq<PageSize>, doc: Document, review: seq<Candidate>,
    drafted: Option<seq<DraftSection>>)
    requires DraftAccepted(draft) && Sized(documentType, 1, 100) && Finishes(draft, documentType, pages, doc)
    requires drafted.Some? ==> SectionsAccepted(drafted.value)
    ensures var (stored, shown, issues) := StoredResult(rules, draft, doc, review, drafted);
            && Valid(stored) && UniqueIds(stored) && NoBoilerplate(rules, stored)
            && ValidPresentation(shown) && ExactCover(stored, shown.sections) && shown.excluded == []
            && forall issue :: issue in issues ==> Live(stored, issue.target)
  {
    FinishedDocumentsAreValid(draft, documentType, pages, doc);
    FinishedIdsAreUnique(draft, documentType, pages, doc);
    FinishedPresentationsCover(doc, drafted);
    IssuesAreLive(rules, draft, doc, review);
    RemovalIsSound(rules, doc, FinalPresentation(doc, drafted), FinalIssues(rules, draft, doc, review));
    RemovalStaysValid(doc, RemovedIds(rules, doc));
    FinishedPresentationsAreValid(doc, drafted);
    RemovalKeepsValid(FinalPresentation(doc, drafted), RemovedIds(rules, doc));
  }

  // ---------- reading the stored result back ----------

  lemma SameTargets(rules: Rules, doc: Document)
    requires NoBoilerplate(rules, doc)
    ensures AllTargets(NormalizedDocument(rules, doc)) == AllTargets(doc)
  {
    NothingDropped(rules, doc);
    assert Observations(NormalizedDocument(rules, doc)) == Observations(doc);
  }

  /** A sound stored result is read back whole: only the numbers of its sections change. */
  lemma SoundResultsAreReadBack(rules: Rules, doc: Document, shown: Presentation)
    requires Valid(doc) && NoBoilerplate(rules, doc) && ValidPresentation(shown) && ExactCover(doc, shown.sections)
    requires forall id :: id in shown.excluded ==> id in AllTargets(doc)
    ensures var n := NormalizedDocument(rules, doc);
            && Coerced(rules, ToJson(doc)) == Some(n)
            && CoercedPresentation(Stored(shown), n) == Some(Presentation(Renumbered(shown.sections), shown.excluded))
  {
    CoercedDump(rules, doc);
    SameTargets(rules, doc);
    StoredCoversAreReadBack(NormalizedDocument(rules, doc), shown);
  }
}
