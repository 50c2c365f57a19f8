/** What finalization guarantees: distinct ids, and issues that are live and distinct. */
module ExtractionTheorems {
  import opened Wrappers
  import opened ExtractionSchema
  import opened QualityDetectors
  import opened ObservationIds
  import opened Extraction

  // ---------- ids ----------

  /** Ids that follow positions, within the schema's bounds. */
  predicate Laid(doc: Document) {
    && |doc.fields| <= 2000 && (forall i :: 0 <= i < |doc.fields| ==> doc.fields[i].id == FieldId(i))
    && |doc.tables| <= 100 && (forall t :: 0 <= t < |doc.tables| ==> LaidTable(doc.tables[t], t))
    && |doc.blocks| <= 500 && (forall i :: 0 <= i < |doc.blocks| ==> doc.blocks[i].id == BlockId(i))
  }

  predicate LaidTable(table: Table, t: nat) {
    && table.id == TableId(t)
    && |table.rows| <= 5000
    && (forall r :: 0 <= r < |table.rows| ==> LaidRow(table.rows[r], t, r))
  }

  predicate LaidRow(row: Row, t: nat, r: nat) {
    && row.id == RowId(t, r)
    && |row.cells| <= 100
    && (forall c :: 0 <= c < |row.cells| ==> row.cells[c].id == CellId(t, r, c))
  }

  lemma TablesAreLaid(table: DraftTable, t: nat, pages: seq<PageSize>)
    requires TableAccepted(table) && TableOf(table, t, pages).Ok?
    ensures LaidTable(TableOf(table, t, pages).value, t)
  {
    var rows := RowsOf(table.rows, t);
    forall r | 0 <= r < |rows| ensures LaidRow(rows[r], t, r) {
      assert table.rows[r] in table.rows;
    }
  }

  lemma FieldsAreLaid(drafted: seq<DraftField>, pages: seq<PageSize>, fields: seq<Field>)
    requires FieldsFinish(drafted, pages, fields)
    ensures forall i :: 0 <= i < |fields| ==> fields[i].id == FieldId(i)
  {
  }

  lemma AllTablesAreLaid(drafted: seq<DraftTable>, pages: seq<PageSize>, tables: seq<Table>)
    requires TablesFinish(drafted, pages, tables) && forall t :: t in drafted ==> TableAccepted(t)
    ensures forall t :: 0 <= t < |tables| ==> LaidTable(tables[t], t)
  {
    forall t | 0 <= t < |tables| ensures LaidTable(tables[t], t) {
      assert drafted[t] in drafted;
      TablesAreLaid(drafted[t], t, pages);
    }
  }

  lemma BlocksAreLaid(drafted: seq<DraftBlock>, pages: seq<PageSize>, blocks: seq<Block>)
    requires BlocksFinish(drafted, pages, blocks)
    ensures forall i :: 0 <= i < |blocks| ==> blocks[i].id == BlockId(i)
  {
  }

  lemma FinishedDocumentsAreLaid(draft: Draft, documentType: string, pages: seq<PageSize>, doc: Document)
    requires DraftAccepted(draft) && Finishes(draft, documentType, pages, doc)
    ensures Laid(doc)
  {
    FieldsAreLaid(draft.fields, pages, doc.fields);
    AllTablesAreLaid(draft.tables, pages, doc.tables);
    BlocksAreLaid(draft.blocks, pages, doc.blocks);
  }

  lemma IdsFollowPositions(doc: Document, p: Position)
    requires Laid(doc) && Has(doc, p)
    ensures Small(p) && IdAt(doc, p) == IdOf(p)
  {
    if !p.FieldAt? && !p.BlockAt? {
      assert LaidTable(doc.tables[p.t], p.t);
      if !p.TableAt? {
        assert LaidRow(doc.tables[p.t].rows[p.r], p.t, p.r);
      }
    }
  }

  /** All generated ids are pairwise distinct. */
  lemma FinishedIdsAreUnique(draft: Draft, documentType: string, pages: seq<PageSize>, doc: Document)
    requires DraftAccepted(draft) && Finishes(draft, documentType, pages, doc)
    ensures UniqueIds(doc)
  {
    FinishedDocumentsAreLaid(draft, documentType, pages, doc);
    forall p, q | Has(doc, p) && Has(doc, q) && IdAt(doc, p) == IdAt(doc, q) ensures p == q {
      IdsFollowPositions(doc, p);
      IdsFollowPositions(doc, q);
      IdsAreDistinct(p, q);
    }
  }

  // ---------- issues ----------

  predicate DistinctKeys(issues: seq<Issue>) {
    forall j, k :: 0 <= j < k < |issues| ==> issues[j].target != issues[k].target || issues[j].code != issues[k].code
  }

  ghost predicate Live(doc: Document, target: string) {
    exists p :: Has(doc, p) && IsValue(p) && IdAt(doc, p) == target
  }

  lemma {:induction false} SettledAreDistinct(resolve: string -> Option<string>, candidates: seq<Candidate>, n: nat)
    requires n <= |candidates|
    ensures DistinctKeys(Settled(resolve, candidates, n))
    ensures forall issue :: issue in Settled(resolve, candidates, n) ==> exists path :: resolve(path) == Some(issue.target)
  {
    if n > 0 {
      SettledAreDistinct(resolve, candidates, n - 1);
      var before := Settled(resolve, candidates, n - 1);
      forall i | 0 <= i < |before| ensures (before[i].target, before[i].code) in IssueKeys(before) {
      }
    }
  }

  /** Whatever a reviewing model proposes, no issue is repeated and every issue names an observation. */
  lemma IssuesAreLiveAndDistinct(doc: Document, candidates: seq<Candidate>, n: nat)
    requires n <= |candidates|
    ensures DistinctKeys(Settled(path => TargetId(doc, path), candidates, n))
    ensures forall issue :: issue in Settled(path => TargetId(doc, path), candidates, n) ==> Live(doc, issue.target)
  {
    var resolve := path => TargetId(doc, path);
    SettledAreDistinct(resolve, candidates, n);
    forall path | resolve(path).Some? ensures Live(doc, resolve(path).value) {
      var p := TargetPosition(doc, path).value;
      assert Has(doc, p) && IsValue(p) && IdAt(doc, p) == resolve(path).value;
    }
  }
}
