/**
 Reading stored extraction data: validation, normalization, the pointer of each value, and what a correction
 through such a pointer does to the document.
 */
module StoredExtraction {
  import opened Wrappers
  import opened TextNormalization
  import opened Decimal
  import opened Corrections
  import opened ExtractionSchema
  import opened TextRules
  import opened Extraction
  import opened Sequences
  import opened DocumentJson

  // ---------- normalization of a stored document ----------

  function NormalizedField(f: Field): Field {
    f.(name := Normalize(f.name), value := Normalize(f.value))
  }

  function NormalizedCells(cells: seq<Cell>): seq<Cell> {
    seq(|cells|, c requires 0 <= c < |cells| => cells[c].(value := Normalize(cells[c].value)))
  }

  function NormalizedRows(rows: seq<Row>): seq<Row> {
    seq(|rows|, r requires 0 <= r < |rows| => rows[r].(cells := NormalizedCells(rows[r].cells)))
  }

  function NormalizedTable(t: Table): Table {
    t.(title := NormalizedTitle(t.title), headers := NormalizedAll(t.headers), rows := NormalizedRows(t.rows))
  }

  function NormalizedBlock(b: Block): Block {
    b.(text := Normalize(b.text))
  }

  function KeptBlocks(rules: Rules, blocks: seq<Block>): seq<Block> {
    Keep(blocks, (b: Block) => !Boilerplate(rules, b.text))
  }

  function NormalizedFields(fields: seq<Field>): seq<Field> {
    seq(|fields|, i requires 0 <= i < |fields| => NormalizedField(fields[i]))
  }

  function NormalizedTables(tables: seq<Table>): seq<Table> {
    seq(|tables|, t requires 0 <= t < |tables| => NormalizedTable(tables[t]))
  }

  function NormalizedBlocks(blocks: seq<Block>): seq<Block> {
    seq(|blocks|, i requires 0 <= i < |blocks| => NormalizedBlock(blocks[i]))
  }

  /** Every text normalized, boilerplate blocks dropped. */
  function NormalizedDocument(rules: Rules, doc: Document): Document {
    Document(
      doc.documentType,
      NormalizedFields(doc.fields),
      NormalizedTables(doc.tables),
      NormalizedBlocks(KeptBlocks(rules, doc.blocks)))
  }

  /** The generic branch: the stored data validated and normalized. */
  function Coerced(rules: Rules, data: Json): Option<Document> {
    var doc :- FromJson(data);
    Some(NormalizedDocument(rules, doc))
  }

  // ---------- the pointer of a value ----------

  function FieldValuePath(i: nat): string {
    Pointer(["fields", Render(i), "value"])
  }

  function CellValuePath(t: nat, r: nat, c: nat): string {
    Pointer(["tables", Render(t), "rows", Render(r), "cells", Render(c), "value"])
  }

  function BlockTextPath(i: nat): string {
    Pointer(["text_blocks", Render(i), "text"])
  }

  function ValuePath(p: Position): string
    requires IsValue(p)
  {
    match p
    case FieldAt(i) => FieldValuePath(i)
    case CellAt(t, r, c) => CellValuePath(t, r, c)
    case BlockAt(i) => BlockTextPath(i)
  }

  /** The first element with an id, from an index on. */
  function FirstWith<T>(s: seq<T>, idOf: T -> string, id: string, from: nat): (i: Option<nat>)
    requires from <= |s|
    ensures i.Some? ==> from <= i.value < |s| && idOf(s[i.value]) == id
    ensures i.None? ==> forall j :: from <= j < |s| ==> idOf(s[j]) != id
    decreases |s| - from
  {
    if from == |s| then None else if idOf(s[from]) == id then Some(from) else FirstWith(s, idOf, id, from + 1)
  }

  function FirstField(fields: seq<Field>, id: string, from: nat): Option<nat>
    requires from <= |fields|
  {
    FirstWith(fields, (f: Field) => f.id, id, from)
  }

  function FirstCell(cells: seq<Cell>, id: string, from: nat): Option<nat>
    requires from <= |cells|
  {
    FirstWith(cells, (c: Cell) => c.id, id, from)
  }

  function FirstBlock(blocks: seq<Block>, id: string, from: nat): Option<nat>
    requires from <= |blocks|
  {
    FirstWith(blocks, (b: Block) => b.id, id, from)
  }

  /** The first cell with an id, row by row from row r of table t. */
  function FirstInTables(doc: Document, id: string, t: nat, r: nat): (p: Option<Position>)
    requires t <= |doc.tables| && (t < |doc.tables| ==> r <= |doc.tables[t].rows|)
    ensures p.Some? ==> Has(doc, p.value) && p.value.CellAt? && IdAt(doc, p.value) == id
    decreases |doc.tables| - t, if t < |doc.tables| then |doc.tables[t].rows| - r else 0
  {
    if t == |doc.tables| then None
    else if r == |doc.tables[t].rows| then FirstInTables(doc, id, t + 1, 0)
    else
      match FirstCell(doc.tables[t].rows[r].cells, id, 0)
      case Some(c) => Some(CellAt(t, r, c))
      case None => FirstInTables(doc, id, t, r + 1)
  }

  lemma {:induction false} NoCellMissed(doc: Document, id: string, t: nat, r: nat, q: Position)
    requires t <= |doc.tables| && (t < |doc.tables| ==> r <= |doc.tables[t].rows|)
    requires FirstInTables(doc, id, t, r).None? && Has(doc, q) && q.CellAt? && (q.t > t || (q.t == t && q.r >= r))
    ensures IdAt(doc, q) != id
    decreases |doc.tables| - t, if t < |doc.tables| then |doc.tables[t].rows| - r else 0
  {
    if r == |doc.tables[t].rows| {
      NoCellMissed(doc, id, t + 1, 0, q);
    } else if q.t > t || q.r > r {
      NoCellMissed(doc, id, t, r + 1, q);
    }
  }

  /** The first value with an id: fields first, then cells, then text blocks. */
  function FirstValue(doc: Document, id: string): (p: Option<Position>)
    ensures p.Some? ==> Has(doc, p.value) && IsValue(p.value) && IdAt(doc, p.value) == id
  {
    match FirstField(doc.fields, id, 0)
    case Some(i) => Some(FieldAt(i))
    case None =>
      match FirstInTables(doc, id, 0, 0)
      case Some(p) => Some(p)
      case None =>
        match FirstBlock(doc.blocks, id, 0) case Some(i) => Some(BlockAt(i)) case None => None
  }

  /** There is a first value with an id as soon as some value has it. */
  lemma ValuesAreFound(doc: Document, id: string)
    ensures FirstValue(doc, id).None? <==> forall q :: Has(doc, q) && IsValue(q) ==> IdAt(doc, q) != id
  {
    if FirstValue(doc, id).None? {
      forall q | Has(doc, q) && IsValue(q) ensures IdAt(doc, q) != id {
        if q.CellAt? {
          NoCellMissed(doc, id, 0, 0, q);
        }
      }
    }
  }

  /** The pointer of a target, as far as there is one. */
  function PathFor(doc: Document, id: string): Option<string> {
    match FirstValue(doc, id) case None => None case Some(p) => Some(ValuePath(p))
  }

  method FindCell(doc: Document, id: string) returns (p: Option<Position>)
    ensures p == FirstInTables(doc, id, 0, 0)
  {
    for t := 0 to |doc.tables|
      invariant FirstInTables(doc, id, 0, 0) == FirstInTables(doc, id, t, 0)
    {
      var rows := doc.tables[t].rows;
      for r := 0 to |rows|
        invariant FirstInTables(doc, id, 0, 0) == FirstInTables(doc, id, t, r)
      {
        for c := 0 to |rows[r].cells|
          invariant FirstCell(rows[r].cells, id, 0) == FirstCell(rows[r].cells, id, c)
        {
          if rows[r].cells[c].id == id {
            return Some(CellAt(t, r, c));
          }
        }
      }
    }
    return None;
  }

  /** Fields, then cells, then text blocks; an error exactly when no value has the id. */
  method TargetValuePath(doc: Document, id: string) returns (path: Option<string>)
    ensures path == PathFor(doc, id)
    ensures path.None? <==> forall q :: Has(doc, q) && IsValue(q) ==> IdAt(doc, q) != id
  {
    ValuesAreFound(doc, id);
    for i := 0 to |doc.fields|
      invariant FirstField(doc.fields, id, 0) == FirstField(doc.fields, id, i)
    {
      if doc.fields[i].id == id {
        return Some(FieldValuePath(i));
      }
    }
    var cell := FindCell(doc, id);
    if cell.Some? {
      return Some(CellValuePath(cell.value.t, cell.value.r, cell.value.c));
    }
    for i := 0 to |doc.blocks|
      invariant FirstBlock(doc.blocks, id, 0) == FirstBlock(doc.blocks, id, i)
    {
      if doc.blocks[i].id == id {
        return Some(BlockTextPath(i));
      }
    }
    return None;
  }

  // ---------- what a pointer does to the stored data ----------

  lemma ArrayStep(items: seq<Json>, i: nat, rest: seq<string>, value: Json)
    requires i < |items| && Lookup(items[i], rest).Ok?
    ensures Lookup(Array(items), [Render(i)] + rest) == Lookup(items[i], rest)
    ensures Replaced(Array(items), [Render(i)] + rest, value) == Array(items[i := Replaced(items[i], rest, value)])
  {
    ParseRender(i);
    assert ([Render(i)] + rest)[1..] == rest;
  }

  lemma ObjectStep(members: map<string, Json>, key: string, rest: seq<string>, value: Json)
    requires key in members && Lookup(members[key], rest).Ok?
    ensures Lookup(Object(members), [key] + rest) == Lookup(members[key], rest)
    ensures Replaced(Object(members), [key] + rest, value)
            == Object(members[key := Replaced(members[key], rest, value)])
  {
    assert ([key] + rest)[1..] == rest;
  }

  lemma LeafStep(members: map<string, Json>, key: string, value: Json)
    requires key in members
    ensures Lookup(Object(members), [key]) == Ok(members[key])
    ensures Replaced(Object(members), [key], value) == Object(members[key := value])
  {
    ObjectStep(members, key, [], value);
    assert [key] + [] == [key];
  }

  lemma ArrayUpdate<T>(s: seq<T>, write: T -> Json, i: nat, x: T)
    requires i < |s|
    ensures Array(ArrayOf(s, write).items[i := write(x)]) == ArrayOf(s[i := x], write)
  {
  }

  /** What pointing below an element of a written array does. */
  lemma ElementStep<T>(s: seq<T>, write: T -> Json, i: nat, x: T, rest: seq<string>, value: Json)
    requires i < |s| && Lookup(write(s[i]), rest).Ok? && Replaced(write(s[i]), rest, value) == write(x)
    ensures Lookup(ArrayOf(s, write), [Render(i)] + rest) == Lookup(write(s[i]), rest)
    ensures Replaced(ArrayOf(s, write), [Render(i)] + rest, value) == ArrayOf(s[i := x], write)
  {
    ArrayStep(ArrayOf(s, write).items, i, rest, value);
    ArrayUpdate(s, write, i, x);
  }

  lemma FieldPointer(doc: Document, i: nat, v: string)
    requires i < |doc.fields|
    ensures var tokens := ["fields", Render(i), "value"];
            && Lookup(ToJson(doc), tokens) == Ok(String(doc.fields[i].value))
            && Replaced(ToJson(doc), tokens, String(v)) == ToJson(WithValue(doc, FieldAt(i), v))
  {
    var field := doc.fields[i];
    LeafStep(FieldJson(field).members, "value", String(v));
    assert FieldJson(field).members["value" := String(v)] == FieldJson(field.(value := v)).members;
    var write := (f: Field) => FieldJson(f);
    ElementStep(doc.fields, write, i, field.(value := v), ["value"], String(v));
    var rest := [Render(i)] + ["value"];
    ObjectStep(ToJson(doc).members, "fields", rest, String(v));
    assert ["fields"] + rest == ["fields", Render(i), "value"];
    assert ToJson(doc).members["fields" := ArrayOf(doc.fields[i := field.(value := v)], write)]
        == ToJson(WithValue(doc, FieldAt(i), v)).members;
  }

  lemma BlockPointer(doc: Document, i: nat, v: string)
    requires i < |doc.blocks|
    ensures var tokens := ["text_blocks", Render(i), "text"];
            && Lookup(ToJson(doc), tokens) == Ok(String(doc.blocks[i].text))
            && Replaced(ToJson(doc), tokens, String(v)) == ToJson(WithValue(doc, BlockAt(i), v))
  {
    var block := doc.blocks[i];
    LeafStep(BlockJson(block).members, "text", String(v));
    assert BlockJson(block).members["text" := String(v)] == BlockJson(block.(text := v)).members;
    var write := (b: Block) => BlockJson(b);
    ElementStep(doc.blocks, write, i, block.(text := v), ["text"], String(v));
    var rest := [Render(i)] + ["text"];
    ObjectStep(ToJson(doc).members, "text_blocks", rest, String(v));
    assert ["text_blocks"] + rest == ["text_blocks", Render(i), "text"];
    assert ToJson(doc).members["text_blocks" := ArrayOf(doc.blocks[i := block.(text := v)], write)]
        == ToJson(WithValue(doc, BlockAt(i), v)).members;
  }
}
