/** Corrections reach exactly the value they name; reading stored data back is stable; and when neither holds. */
module StoredExtractionTheorems {
  import opened Wrappers
  import opened TextNormalization
  import opened Decimal
  import opened Corrections
  import opened ExtractionSchema
  import opened TextRules
  import opened QualityDetectors
  import opened Extraction
  import opened Sequences
  import opened PresentationTheorems
  import opened DocumentJson
  import opened StoredExtraction

  // ---------- a pointer to a cell ----------

  lemma CellInRow(row: Row, c: nat, v: string)
    requires c < |row.cells|
    ensures var tokens := ["cells", Render(c), "value"];
            && Lookup(RowJson(row), tokens) == Ok(String(row.cells[c].value))
            && Replaced(RowJson(row), tokens, String(v))
               == RowJson(row.(cells := row.cells[c := row.cells[c].(value := v)]))
  {
    var cell := row.cells[c];
    LeafStep(CellJson(cell).members, "value", String(v));
    assert CellJson(cell).members["value" := String(v)] == CellJson(cell.(value := v)).members;
    var write := (c: Cell) => CellJson(c);
    ElementStep(row.cells, write, c, cell.(value := v), ["value"], String(v));
    var rest := [Render(c)] + ["value"];
    ObjectStep(RowJson(row).members, "cells", rest, String(v));
    assert ["cells"] + rest == ["cells", Render(c), "value"];
    assert RowJson(row).members["cells" := ArrayOf(row.cells[c := cell.(value := v)], write)]
        == RowJson(row.(cells := row.cells[c := cell.(value := v)])).members;
  }

  function WithCell(row: Row, c: nat, v: string): Row
    requires c < |row.cells|
  {
    row.(cells := row.cells[c := row.cells[c].(value := v)])
  }

  lemma CellInTable(table: Table, r: nat, c: nat, v: string)
    requires r < |table.rows| && c < |table.rows[r].cells|
    ensures var tokens := ["rows", Render(r), "cells", Render(c), "value"];
            && Lookup(TableJson(table), tokens) == Ok(String(table.rows[r].cells[c].value))
            && Replaced(TableJson(table), tokens, String(v))
               == TableJson(table.(rows := table.rows[r := WithCell(table.rows[r], c, v)]))
  {
    var below := ["cells", Render(c), "value"];
    CellInRow(table.rows[r], c, v);
    var write := (r: Row) => RowJson(r);
    var rows := table.rows[r := WithCell(table.rows[r], c, v)];
    ElementStep(table.rows, write, r, WithCell(table.rows[r], c, v), below, String(v));
    var rest := [Render(r)] + below;
    ObjectStep(TableJson(table).members, "rows", rest, String(v));
    assert ["rows"] + rest == ["rows", Render(r), "cells", Render(c), "value"];
    assert TableJson(table).members["rows" := ArrayOf(rows, write)] == TableJson(table.(rows := rows)).members;
  }

  lemma CellPointer(doc: Document, t: nat, r: nat, c: nat, v: string)
    requires Has(doc, CellAt(t, r, c))
    ensures var tokens := ["tables", Render(t), "rows", Render(r), "cells", Render(c), "value"];
            && Lookup(ToJson(doc), tokens) == Ok(String(doc.tables[t].rows[r].cells[c].value))
            && Replaced(ToJson(doc), tokens, String(v)) == ToJson(WithValue(doc, CellAt(t, r, c), v))
  {
    var below := ["rows", Render(r), "cells", Render(c), "value"];
    var table := doc.tables[t];
    CellInTable(table, r, c, v);
    var write := (t: Table) => TableJson(t);
    var changed := table.(rows := table.rows[r := WithCell(table.rows[r], c, v)]);
    ElementStep(doc.tables, write, t, changed, below, String(v));
    var rest := [Render(t)] + below;
    ObjectStep(ToJson(doc).members, "tables", rest, String(v));
    assert ["tables"] + rest == ["tables", Render(t), "rows", Render(r), "cells", Render(c), "value"];
    assert ToJson(doc).members["tables" := ArrayOf(doc.tables[t := changed], write)]
        == ToJson(WithValue(doc, CellAt(t, r, c), v)).members;
  }

  // ---------- pointers to values ----------

  function ValueTokens(p: Position): seq<string>
    requires IsValue(p)
  {
    match p
    case FieldAt(i) => ["fields", Render(i), "value"]
    case CellAt(t, r, c) => ["tables", Render(t), "rows", Render(r), "cells", Render(c), "value"]
    case BlockAt(i) => ["text_blocks", Render(i), "text"]
  }

  lemma ValuePathsAreRead(p: Position)
    requires IsValue(p)
    ensures Tokens(ValuePath(p)) == Ok(ValueTokens(p))
  {
    match p
    case FieldAt(i) =>
      NumeralIsPlain(i);
      PointerRoundTrip(["fields", Render(i), "value"]);
    case CellAt(t, r, c) =>
      NumeralIsPlain(t);
      NumeralIsPlain(r);
      NumeralIsPlain(c);
      PointerRoundTrip(["tables", Render(t), "rows", Render(r), "cells", Render(c), "value"]);
    case BlockAt(i) =>
      NumeralIsPlain(i);
      PointerRoundTrip(["text_blocks", Render(i), "text"]);
  }

  /** The pointer of a value resolves to it in the dumped document, and writing through it changes that value alone. */
  lemma PointerReachesItsValue(doc: Document, p: Position, v: string)
    requires Has(doc, p) && IsValue(p)
    ensures Resolve(ToJson(doc), ValuePath(p)) == Ok(String(ValueAt(doc, p)))
    ensures ReplacedAt(ToJson(doc), ValuePath(p), String(v)) == ToJson(WithValue(doc, p, v))
  {
    ValuePathsAreRead(p);
    match p
    case FieldAt(i) => FieldPointer(doc, i, v);
    case CellAt(t, r, c) => CellPointer(doc, t, r, c, v);
    case BlockAt(i) => BlockPointer(doc, i, v);
  }

  // ---------- where a value of the normalized document is stored ----------

  /** Where a value of the normalized document stands in the stored one: a kept block may have moved up. */
  function StoredAt(rules: Rules, doc: Document, p: Position): (q: Position)
    requires Has(NormalizedDocument(rules, doc), p)
    ensures Has(doc, q) && IdAt(doc, q) == IdAt(NormalizedDocument(rules, doc), p)
    ensures IsValue(q) == IsValue(p)
    ensures IsValue(p) ==> ValueAt(NormalizedDocument(rules, doc), p) == Normalize(ValueAt(doc, q))
  {
    if p.BlockAt? then BlockAt(KeptIndex(doc.blocks, (b: Block) => !Boilerplate(rules, b.text), p.i)) else p
  }

  lemma UniqueIdsStay(rules: Rules, doc: Document)
    requires UniqueIds(doc)
    ensures UniqueIds(NormalizedDocument(rules, doc))
  {
    var n := NormalizedDocument(rules, doc);
    forall p, q | Has(n, p) && Has(n, q) && IdAt(n, p) == IdAt(n, q) ensures p == q {
      assert StoredAt(rules, doc, p) == StoredAt(rules, doc, q);
    }
  }

  lemma UniqueValue(doc: Document, p: Position)
    requires UniqueIds(doc) && Has(doc, p) && IsValue(p)
    ensures FirstValue(doc, IdAt(doc, p)) == Some(p)
  {
    ValuesAreFound(doc, IdAt(doc, p));
  }

  lemma {:induction false} KeptWhole(blocks: seq<Block>, keeps: Block -> bool)
    ensures |Keep(blocks, keeps)| <= |blocks|
    ensures |Keep(blocks, keeps)| == |blocks| <==> forall b :: b in blocks ==> keeps(b)
  {
    if blocks != [] {
      var front, last := blocks[..|blocks| - 1], blocks[|blocks| - 1];
      KeptWhole(front, keeps);
      assert blocks == front + [last];
    }
  }

  /**
   What correcting a target does to the stored data. The pointer is computed after boilerplate blocks are
   dropped, so it always addresses position p; that is where the target is stored unless boilerplate precedes it.
   */
  lemma CorrectionReaches(rules: Rules, doc: Document, p: Position, v: string)
    requires UniqueIds(doc) && Has(NormalizedDocument(rules, doc), p) && IsValue(p)
    ensures Has(doc, p)
    ensures PathFor(NormalizedDocument(rules, doc), IdAt(NormalizedDocument(rules, doc), p)) == Some(ValuePath(p))
    ensures Resolve(ToJson(doc), ValuePath(p)) == Ok(String(ValueAt(doc, p)))
    ensures ReplacedAt(ToJson(doc), ValuePath(p), String(v)) == ToJson(WithValue(doc, p, v))
    ensures StoredAt(rules, doc, p) == p <==>
              (p.BlockAt? ==> forall b :: b in doc.blocks[..StoredAt(rules, doc, p).i] ==> !Boilerplate(rules, b.text))
  {
    var n := NormalizedDocument(rules, doc);
    UniqueIdsStay(rules, doc);
    UniqueValue(n, p);
    if p.BlockAt? {
      var keeps := (b: Block) => !Boilerplate(rules, b.text);
      KeptWhole(doc.blocks, keeps);
      KeptWhole(doc.blocks[..StoredAt(rules, doc, p).i], keeps);
    }
    PointerReachesItsValue(doc, p, v);
  }

  // ---------- correcting and reading back ----------

  /** What the schema accepts as a value at a position. */
  predicate Acceptable(p: Position, v: string) {
    match p
    case FieldAt(_) => Sized(v, 1, 20000)
    case BlockAt(_) => Sized(v, 1, 50000)
    case _ => Sized(v, 0, 20000)
  }

  lemma ValidAfterCorrection(doc: Document, p: Position, v: string)
    requires Valid(doc) && Has(doc, p) && IsValue(p)
    ensures Valid(WithValue(doc, p, v)) <==> Acceptable(p, v)
  {
    var changed := WithValue(doc, p, v);
    match p
    case FieldAt(i) =>
      assert ValidField(doc.fields[i]);
      assert ValidField(changed.fields[i]) <==> Acceptable(p, v);
    case BlockAt(i) =>
      assert ValidBlock(doc.blocks[i]);
      assert ValidBlock(changed.blocks[i]) <==> Acceptable(p, v);
    case CellAt(t, r, c) => ValidCellChange(doc.tables[t], r, c, v);
      assert ValidTable(changed.tables[t]) <==> Acceptable(p, v);
  }

  lemma ValidCellChange(table: Table, r: nat, c: nat, v: string)
    requires ValidTable(table) && r < |table.rows| && c < |table.rows[r].cells|
    ensures ValidTable(table.(rows := table.rows[r := WithCell(table.rows[r], c, v)])) <==> Sized(v, 0, 20000)
  {
    var row := WithCell(table.rows[r], c, v);
    var changed := table.(rows := table.rows[r := row]);
    assert ValidRow(table.rows[r]) && ValidCell(table.rows[r].cells[c]);
    assert ValidRow(row) <==> ValidCell(row.cells[c]);
    assert changed.rows[r] == row;
  }

  lemma NothingDropped(rules: Rules, doc: Document)
    requires NoBoilerplate(rules, doc)
    ensures KeptBlocks(rules, doc.blocks) == doc.blocks
  {
    KeepAll(doc.blocks, (b: Block) => !Boilerplate(rules, b.text));
  }

  lemma NormalizingCommutes(rules: Rules, doc: Document, p: Position, v: string)
    requires NoBoilerplate(rules, doc) && Has(doc, p) && IsValue(p) && !(p.BlockAt? && Boilerplate(rules, v))
    ensures Has(NormalizedDocument(rules, doc), p)
    ensures NormalizedDocument(rules, WithValue(doc, p, v)) == WithValue(NormalizedDocument(rules, doc), p, Normalize(v))
  {
    NothingDropped(rules, doc);
    match p
    case FieldAt(i) => NormalizingField(doc.fields, i, v);
    case BlockAt(i) =>
      NothingDropped(rules, doc.(blocks := doc.blocks[i := doc.blocks[i].(text := v)]));
      NormalizingBlock(doc.blocks, i, v);
    case CellAt(t, r, c) => NormalizingTable(doc.tables, t, r, c, v);
  }

  lemma NormalizingField(fields: seq<Field>, i: nat, v: string)
    requires i < |fields|
    ensures NormalizedFields(fields[i := fields[i].(value := v)])
            == NormalizedFields(fields)[i := NormalizedFields(fields)[i].(value := Normalize(v))]
  {
  }

  lemma NormalizingBlock(blocks: seq<Block>, i: nat, v: string)
    requires i < |blocks|
    ensures NormalizedBlocks(blocks[i := blocks[i].(text := v)])
            == NormalizedBlocks(blocks)[i := NormalizedBlocks(blocks)[i].(text := Normalize(v))]
  {
  }

  lemma NormalizingTable(tables: seq<Table>, t: nat, r: nat, c: nat, v: string)
    requires t < |tables| && r < |tables[t].rows| && c < |tables[t].rows[r].cells|
    ensures var changed := tables[t].(rows := tables[t].rows[r := WithCell(tables[t].rows[r], c, v)]);
            var n := NormalizedTables(tables);
            NormalizedTables(tables[t := changed])
            == n[t := n[t].(rows := n[t].rows[r := WithCell(n[t].rows[r], c, Normalize(v))])]
  {
    NormalizingCell(tables[t], r, c, v);
  }

  lemma NormalizingCell(table: Table, r: nat, c: nat, v: string)
    requires r < |table.rows| && c < |table.rows[r].cells|
    ensures var changed := table.(rows := table.rows[r := WithCell(table.rows[r], c, v)]);
            var n := NormalizedTable(table);
            NormalizedTable(changed) == n.(rows := n.rows[r := WithCell(n.rows[r], c, Normalize(v))])
  {
    var changed := table.(rows := table.rows[r := WithCell(table.rows[r], c, v)]);
    var n := NormalizedTable(table);
    assert NormalizedCells(WithCell(table.rows[r], c, v).cells) == WithCell(n.rows[r], c, Normalize(v)).cells;
    assert NormalizedRows(changed.rows) == n.rows[r := WithCell(n.rows[r], c, Normalize(v))];
  }

  lemma CoercedDump(rules: Rules, doc: Document)
    ensures Coerced(rules, ToJson(doc)) == if Valid(doc) then Some(NormalizedDocument(rules, doc)) else None
  {
    DumpValidates(doc);
  }

  lemma CorrectedDocument(rules: Rules, doc: Document, p: Position, v: string)
    requires Valid(doc) && NoBoilerplate(rules, doc) && Has(doc, p) && IsValue(p)
    ensures Has(NormalizedDocument(rules, doc), p)
    ensures var changed := WithValue(doc, p, v);
            Valid(changed) && NormalizedDocument(rules, changed) == WithValue(NormalizedDocument(rules, doc), p, Normalize(v))
            <==> Acceptable(p, v) && !(p.BlockAt? && Boilerplate(rules, v))
  {
    ValidAfterCorrection(doc, p, v);
    SamePlace(rules, doc, p);
    if p.BlockAt? && Boilerplate(rules, v) {
      BlockVanishes(rules, doc, p, v);
    } else {
      NormalizingCommutes(rules, doc, p, v);
    }
  }

  lemma BlockVanishes(rules: Rules, doc: Document, p: Position, v: string)
    requires NoBoilerplate(rules, doc) && Has(doc, p) && p.BlockAt? && Boilerplate(rules, v)
    ensures |NormalizedDocument(rules, WithValue(doc, p, v)).blocks| < |NormalizedDocument(rules, doc).blocks|
  {
    var changed := WithValue(doc, p, v).blocks;
    NothingDropped(rules, doc);
    assert changed[p.i].text == v && changed[p.i] in changed;
    KeptWhole(changed, (b: Block) => !Boilerplate(rules, b.text));
  }

  /**
   For stored data with unique ids and no boilerplate block: correcting any target changes exactly that value, and
   reading back gives the same document with that value alone replaced by the normalized new one, exactly when the
   schema accepts the new value and it does not turn a text block into boilerplate.
   */
  lemma CorrectionRoundTrip(rules: Rules, doc: Document, p: Position, v: string)
    requires Valid(doc) && UniqueIds(doc) && NoBoilerplate(rules, doc) && Has(doc, p) && IsValue(p)
    ensures Has(NormalizedDocument(rules, doc), p)
    ensures PathFor(NormalizedDocument(rules, doc), IdAt(doc, p)) == Some(ValuePath(p))
    ensures Resolve(ToJson(doc), ValuePath(p)) == Ok(String(ValueAt(doc, p)))
    ensures Coerced(rules, ReplacedAt(ToJson(doc), ValuePath(p), String(v)))
              == Some(WithValue(NormalizedDocument(rules, doc), p, Normalize(v)))
            <==> Acceptable(p, v) && !(p.BlockAt? && Boilerplate(rules, v))
  {
    CorrectedDocument(rules, doc, p, v);
    CoercedDump(rules, WithValue(doc, p, v));
    SamePlace(rules, doc, p);
    UniqueIdsStay(rules, doc);
    UniqueValue(NormalizedDocument(rules, doc), p);
    PointerReachesItsValue(doc, p, v);
  }

  lemma SamePlace(rules: Rules, doc: Document, p: Position)
    requires NoBoilerplate(rules, doc) && Has(doc, p)
    ensures Has(NormalizedDocument(rules, doc), p) && IdAt(NormalizedDocument(rules, doc), p) == IdAt(doc, p)
  {
    NothingDropped(rules, doc);
  }

  // ---------- boilerplate in front ----------

  /** Every block but one is content. */
  predicate OnlyBlank(rules: Rules, blocks: seq<Block>, i: nat)
    requires i < |blocks|
  {
    forall k :: 0 <= k < |blocks| ==> (Boilerplate(rules, blocks[k].text) <==> k == i)
  }

  lemma OneBlockDropped(rules: Rules, blocks: seq<Block>, i: nat)
    requires i < |blocks| && OnlyBlank(rules, blocks, i)
    ensures KeptBlocks(rules, blocks) == blocks[..i] + blocks[i + 1..]
  {
    var keeps := (b: Block) => !Boilerplate(rules, b.text);
    forall b | b in blocks[..i] ensures keeps(b) {
      var k :| 0 <= k < i && blocks[k] == b;
    }
    forall b | b in blocks[i + 1..] ensures keeps(b) {
      var k :| i < k < |blocks| && blocks[k] == b;
    }
    KeepAllButOne(blocks[..i], blocks[i], blocks[i + 1..], keeps);
    assert blocks == blocks[..i] + [blocks[i]] + blocks[i + 1..];
  }

  lemma BlocksMoveUp(rules: Rules, blocks: seq<Block>, i: nat, j: nat)
    requires i < j < |blocks| && OnlyBlank(rules, blocks, i)
    ensures var kept := NormalizedBlocks(KeptBlocks(rules, blocks)); j - 1 < |kept| && kept[j - 1].id == blocks[j].id
  {
    OneBlockDropped(rules, blocks, i);
  }

  /** Behind a stored boilerplate block, the pointer computed for a block is the one of the block before it. */
  lemma PointersMoveUp(rules: Rules, doc: Document, i: nat, j: nat)
    requires UniqueIds(doc) && i < j < |doc.blocks| && OnlyBlank(rules, doc.blocks, i)
    ensures FirstValue(NormalizedDocument(rules, doc), doc.blocks[j].id) == Some(BlockAt(j - 1))
  {
    BlocksMoveUp(rules, doc.blocks, i, j);
    UniqueIdsStay(rules, doc);
    BlockIsFound(NormalizedDocument(rules, doc), j - 1, doc.blocks[j].id);
  }

  lemma BlockIsFound(doc: Document, i: nat, id: string)
    requires UniqueIds(doc) && i < |doc.blocks| && doc.blocks[i].id == id
    ensures FirstValue(doc, id) == Some(BlockAt(i))
  {
    UniqueValue(doc, BlockAt(i));
    assert IdAt(doc, BlockAt(i)) == id;
  }

  /** A blank is boilerplate by any rules. */
  lemma BlanksAreBoilerplate(rules: Rules)
    ensures Boilerplate(rules, " ")
  {
    BlankIsNormalizedAway(" ");
  }

  // ---------- reading back is stable ----------

  lemma FieldStaysValid(f: Field)
    requires ValidField(f)
    ensures ValidField(NormalizedField(f)) <==> NormalizedField(f).name != "" && NormalizedField(f).value != ""
  {
    NormalizeShortens(f.name);
    NormalizeShortens(f.value);
  }

  lemma BlocksStayValid(rules: Rules, blocks: seq<Block>)
    requires forall i :: 0 <= i < |blocks| ==> ValidBlock(blocks[i])
    ensures var kept := NormalizedBlocks(KeptBlocks(rules, blocks));
            |kept| <= |blocks| && forall i :: 0 <= i < |kept| ==> ValidBlock(kept[i])
  {
    var keeps := (b: Block) => !Boilerplate(rules, b.text);
    KeepMembers(blocks, keeps);
    KeptWhole(blocks, keeps);
    var kept := KeptBlocks(rules, blocks);
    forall i | 0 <= i < |kept| ensures ValidBlock(NormalizedBlock(kept[i])) {
      assert kept[i] in blocks && keeps(kept[i]);
      NormalizeShortens(kept[i].text);
    }
  }

  lemma FieldsStayValid(fields: seq<Field>)
    requires forall i :: 0 <= i < |fields| ==> ValidField(fields[i])
    ensures (forall i :: 0 <= i < |fields| ==> ValidField(NormalizedFields(fields)[i])) <==>
              forall f :: f in NormalizedFields(fields) ==> f.name != "" && f.value != ""
  {
    var n := NormalizedFields(fields);
    forall i | 0 <= i < |fields| ensures ValidField(n[i]) <==> n[i].name != "" && n[i].value != "" {
      FieldStaysValid(fields[i]);
    }
  }

  lemma NormalizedStaysValid(rules: Rules, doc: Document)
    requires Valid(doc)
    ensures Valid(NormalizedDocument(rules, doc)) <==>
              forall f :: f in NormalizedDocument(rules, doc).fields ==> f.name != "" && f.value != ""
  {
    FieldsStayValid(doc.fields);
    BlocksStayValid(rules, doc.blocks);
    forall t | 0 <= t < |doc.tables| ensures ValidTable(NormalizedTables(doc.tables)[t]) {
      NormalizedTableStaysValid(doc.tables[t]);
    }
  }

  lemma NormalizedTableStaysValid(t: Table)
    requires ValidTable(t)
    ensures ValidTable(NormalizedTable(t))
  {
    if t.title.Some? {
      NormalizeShortens(t.title.value);
    }
    forall r | 0 <= r < |t.rows| ensures ValidRow(NormalizedRows(t.rows)[r]) {
      assert ValidRow(t.rows[r]);
      forall c | 0 <= c < |t.rows[r].cells| ensures ValidCell(NormalizedCells(t.rows[r].cells)[c]) {
        assert ValidCell(t.rows[r].cells[c]);
        NormalizeShortens(t.rows[r].cells[c].value);
      }
    }
  }

  lemma NormalizedTableIsFixed(t: Table)
    ensures NormalizedTable(NormalizedTable(t)) == NormalizedTable(t) <==> NormalizedTable(t).title != Some("")
  {
    var n := NormalizedTable(t);
    forall i | 0 <= i < |t.headers| ensures Normalize(n.headers[i]) == n.headers[i] {
      NormalizeIsIdempotent(t.headers[i]);
    }
    assert NormalizedAll(n.headers) == n.headers;
    forall r | 0 <= r < |t.rows| ensures NormalizedCells(n.rows[r].cells) == n.rows[r].cells {
      forall c | 0 <= c < |t.rows[r].cells| ensures Normalize(n.rows[r].cells[c].value) == n.rows[r].cells[c].value {
        NormalizeIsIdempotent(t.rows[r].cells[c].value);
      }
    }
    assert NormalizedRows(n.rows) == n.rows;
    if n.title.Some? {
      NormalizeIsIdempotent(t.title.value);
    }
  }

  lemma NormalizedFieldsAreFixed(fields: seq<Field>)
    ensures NormalizedFields(NormalizedFields(fields)) == NormalizedFields(fields)
  {
    forall i | 0 <= i < |fields| ensures NormalizedField(NormalizedField(fields[i])) == NormalizedField(fields[i]) {
      NormalizeIsIdempotent(fields[i].name);
      NormalizeIsIdempotent(fields[i].value);
    }
  }

  lemma NormalizedBlocksAreFixed(rules: Rules, blocks: seq<Block>)
    ensures var n := NormalizedBlocks(KeptBlocks(rules, blocks));
            KeptBlocks(rules, n) == n && NormalizedBlocks(n) == n
  {
    var keeps := (b: Block) => !Boilerplate(rules, b.text);
    var kept := KeptBlocks(rules, blocks);
    var n := NormalizedBlocks(kept);
    KeepMembers(blocks, keeps);
    forall i | 0 <= i < |n| ensures keeps(n[i]) && NormalizedBlock(n[i]) == n[i] {
      assert kept[i] in kept;
      BoilerplateIgnoresArtifacts(rules, kept[i].text);
      NormalizeIsIdempotent(kept[i].text);
    }
    KeepAll(n, keeps);
  }

  lemma NormalizedTablesAreFixed(tables: seq<Table>)
    ensures var n := NormalizedTables(tables);
            NormalizedTables(n) == n <==> forall t :: t in n ==> t.title != Some("")
  {
    var n := NormalizedTables(tables);
    forall t | 0 <= t < |n| ensures NormalizedTable(n[t]) == n[t] <==> n[t].title != Some("") {
      NormalizedTableIsFixed(tables[t]);
    }
    assert NormalizedTables(n) == n <==> forall t :: 0 <= t < |n| ==> NormalizedTable(n[t]) == n[t];
  }

  /** Normalizing a document twice is normalizing it once, exactly when no title was blank without being empty. */
  lemma NormalizingIsIdempotent(rules: Rules, doc: Document)
    ensures var n := NormalizedDocument(rules, doc);
            NormalizedDocument(rules, n) == n <==> forall t :: t in n.tables ==> t.title != Some("")
  {
    NormalizedFieldsAreFixed(doc.fields);
    NormalizedTablesAreFixed(doc.tables);
    NormalizedBlocksAreFixed(rules, doc.blocks);
  }

  /**
   Storing what was read and reading it again is the identity exactly when normalization blanked no field label or
   value (else validation fails) and no table title (else the empty title becomes none).
   */
  lemma ReadingBackIsIdentity(rules: Rules, doc: Document)
    requires Valid(doc)
    ensures var n := NormalizedDocument(rules, doc);
            Coerced(rules, ToJson(n)) == Some(n) <==>
              && (forall f :: f in n.fields ==> f.name != "" && f.value != "")
              && (forall t :: t in n.tables ==> t.title != Some(""))
  {
    CoercedDump(rules, NormalizedDocument(rules, doc));
    NormalizedStaysValid(rules, doc);
    NormalizingIsIdempotent(rules, doc);
  }

  /** A field whose value is a blank: valid, but no longer so once the value is normalized. */
  function BlankField(): Document {
    Document("invoice", [Field("field-0001", "a", " ", 1, None)], [], [])
  }

  lemma BlankFieldIsRejected(rules: Rules)
    ensures Valid(BlankField())
    ensures Coerced(rules, ToJson(NormalizedDocument(rules, BlankField()))) == None
  {
    var n := NormalizedDocument(rules, BlankField());
    BlankFieldIsValid();
    BlankIsNormalizedAway(BlankField().fields[0].value);
    assert n.fields[0] in n.fields && n.fields[0].value == "";
    NormalizedStaysValid(rules, BlankField());
    CoercedDump(rules, n);
  }

  lemma BlankFieldIsValid()
    ensures Valid(BlankField())
  {
    var id := BlankField().fields[0].id;
    assert id[6..] == "0001";
    assert AllDigits("0001");
  }
}
