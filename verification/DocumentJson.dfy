/** The JSON form of a document, its validation, and what a pointer to a value does to it. */
module DocumentJson {
  import opened Wrappers
  import opened Decimal
  import opened Corrections
  import opened ExtractionSchema

  // ---------- writing ----------

  function ArrayOf<T>(s: seq<T>, write: T -> Json): Json {
    Array(seq(|s|, i requires 0 <= i < |s| => write(s[i])))
  }

  function RegionJson(region: Option<Region>): Json {
    match region
    case None => Null
    case Some(r) =>
      Object(map["x" := Number(r.x), "y" := Number(r.y), "width" := Number(r.width), "height" := Number(r.height)])
  }

  function FieldJson(f: Field): Json {
    Object(map["id" := String(f.id), "label" := String(f.name), "value" := String(f.value),
               "page_number" := Number(f.page), "region" := RegionJson(f.region)])
  }

  function CellJson(c: Cell): Json {
    Object(map["id" := String(c.id), "value" := String(c.value)])
  }

  function RowJson(r: Row): Json {
    Object(map["id" := String(r.id), "cells" := ArrayOf(r.cells, (c: Cell) => CellJson(c))])
  }

  function TableJson(t: Table): Json {
    Object(map["id" := String(t.id),
               "title" := (match t.title case None => Null case Some(s) => String(s)),
               "headers" := ArrayOf(t.headers, (s: string) => String(s)),
               "rows" := ArrayOf(t.rows, (r: Row) => RowJson(r)),
               "page_numbers" := ArrayOf(t.pages, (n: int) => Number(n))])
  }

  function BlockJson(b: Block): Json {
    Object(map["id" := String(b.id), "text" := String(b.text), "page_number" := Number(b.page),
               "region" := RegionJson(b.region)])
  }

  /** `model_dump(mode="json")` */
  function ToJson(doc: Document): Json {
    Object(map["document_type" := String(doc.documentType),
               "fields" := ArrayOf(doc.fields, (f: Field) => FieldJson(f)),
               "tables" := ArrayOf(doc.tables, (t: Table) => TableJson(t)),
               "text_blocks" := ArrayOf(doc.blocks, (b: Block) => BlockJson(b))])
  }

  // ---------- reading ----------

  function ReadString(j: Json): Option<string> {
    if j.String? then Some(j.s) else None
  }

  function ReadPage(j: Json): Option<pos> {
    if j.Number? && j.n >= 1 then Some(j.n) else None
  }

  function ReadNat(j: Json): Option<nat> {
    if j.Number? && j.n >= 0 then Some(j.n) else None
  }

  function ReadInt(j: Json): Option<int> {
    if j.Number? then Some(j.n) else None
  }

  function ReadEach<T>(items: seq<Json>, read: Json -> Option<T>): Option<seq<T>> {
    if items == [] then Some([])
    else
      var front :- ReadEach(items[..|items| - 1], read);
      var last :- read(items[|items| - 1]);
      Some(front + [last])
  }

  function ReadArray<T>(j: Json, read: Json -> Option<T>): Option<seq<T>> {
    if j.Array? then ReadEach(j.items, read) else None
  }

  /** The members, if they are exactly the required ones and perhaps the optional one. */
  function Members(j: Json, required: set<string>, optional: string): (m: Option<map<string, Json>>)
    ensures m.Some? ==> required <= m.value.Keys
  {
    if j.Object? && required <= j.members.Keys && j.members.Keys <= required + {optional} then Some(j.members) else None
  }

  function ReadRegion(j: Json): Option<Option<Region>> {
    if j == Null then Some(None)
    else
      var m :- Members(j, {"x", "y", "width", "height"}, "x");
      var x :- ReadNat(m["x"]);
      var y :- ReadNat(m["y"]);
      var width :- ReadNat(m["width"]);
      var height :- ReadNat(m["height"]);
      Some(Some(Region(x, y, width, height)))
  }

  function OptionalMember(m: map<string, Json>, key: string): Json {
    if key in m then m[key] else Null
  }

  function ReadField(j: Json): Option<Field> {
    var m :- Members(j, {"id", "label", "value", "page_number"}, "region");
    var id :- ReadString(m["id"]);
    var name :- ReadString(m["label"]);
    var value :- ReadString(m["value"]);
    var page :- ReadPage(m["page_number"]);
    var region :- ReadRegion(OptionalMember(m, "region"));
    Some(Field(id, name, value, page, region))
  }

  function ReadCell(j: Json): Option<Cell> {
    var m :- Members(j, {"id", "value"}, "id");
    var id :- ReadString(m["id"]);
    var value :- ReadString(m["value"]);
    Some(Cell(id, value))
  }

  function ReadRow(j: Json): Option<Row> {
    var m :- Members(j, {"id", "cells"}, "id");
    var id :- ReadString(m["id"]);
    var cells :- ReadArray(m["cells"], c => ReadCell(c));
    Some(Row(id, cells))
  }

  function ReadTitle(j: Json): Option<Option<string>> {
    if j == Null then Some(None)
    else
      var title :- ReadString(j);
      Some(Some(title))
  }

  function ReadTable(j: Json): Option<Table> {
    var m :- Members(j, {"id", "headers", "rows", "page_numbers"}, "title");
    var id :- ReadString(m["id"]);
    var title :- ReadTitle(OptionalMember(m, "title"));
    var headers :- ReadArray(m["headers"], s => ReadString(s));
    var rows :- ReadArray(m["rows"], r => ReadRow(r));
    var pages :- ReadArray(m["page_numbers"], n => ReadInt(n));
    if pages == [] then None else Some(Table(id, title, headers, rows, pages))
  }

  function ReadBlock(j: Json): Option<Block> {
    var m :- Members(j, {"id", "text", "page_number"}, "region");
    var id :- ReadString(m["id"]);
    var text :- ReadString(m["text"]);
    var page :- ReadPage(m["page_number"]);
    var region :- ReadRegion(OptionalMember(m, "region"));
    Some(Block(id, text, page, region))
  }

  /** The document a JSON value has the shape of. */
  function Read(j: Json): Option<Document> {
    var m :- Members(j, {"document_type", "fields", "tables", "text_blocks"}, "fields");
    var documentType :- ReadString(m["document_type"]);
    var fields :- ReadArray(m["fields"], f => ReadField(f));
    var tables :- ReadArray(m["tables"], t => ReadTable(t));
    var blocks :- ReadArray(m["text_blocks"], b => ReadBlock(b));
    Some(Document(documentType, fields, tables, blocks))
  }

  // ---------- the bounds of the schema ----------

  predicate Sized(s: string, low: nat, high: nat) {
    low <= |s| <= high
  }

  predicate FourDigits(s: string) {
    |s| == 4 && AllDigits(s)
  }

  predicate IsFieldId(id: string) {
    "field-" <= id && FourDigits(id[6..])
  }

  predicate IsTableId(id: string) {
    "table-" <= id && FourDigits(id[6..])
  }

  predicate IsRowId(id: string) {
    |id| == 19 && IsTableId(id[..10]) && id[10..15] == "-row-" && FourDigits(id[15..])
  }

  predicate IsCellId(id: string) {
    |id| == 22 && IsTableId(id[..10]) && id[10..12] == "-r" && FourDigits(id[12..16]) && id[16..18] == "-c"
    && FourDigits(id[18..])
  }

  predicate IsBlockId(id: string) {
    "text-" <= id && FourDigits(id[5..])
  }

  predicate ValidField(f: Field) {
    IsFieldId(f.id) && Sized(f.name, 1, 500) && Sized(f.value, 1, 20000) && RegionAccepted(f.region)
  }

  predicate ValidCell(c: Cell) {
    IsCellId(c.id) && Sized(c.value, 0, 20000)
  }

  predicate ValidRow(r: Row) {
    IsRowId(r.id) && 1 <= |r.cells| <= 100 && forall c :: 0 <= c < |r.cells| ==> ValidCell(r.cells[c])
  }

  predicate ValidTable(t: Table) {
    && IsTableId(t.id)
    && (t.title.Some? ==> Sized(t.title.value, 0, 500))
    && 1 <= |t.headers| <= 100 && 1 <= |t.rows| <= 5000 && |t.pages| <= 100
    && forall r :: 0 <= r < |t.rows| ==> ValidRow(t.rows[r])
  }

  predicate ValidBlock(b: Block) {
    IsBlockId(b.id) && Sized(b.text, 1, 50000) && RegionAccepted(b.region)
  }

  predicate Valid(doc: Document) {
    && Sized(doc.documentType, 1, 100)
    && |doc.fields| <= 2000 && |doc.tables| <= 100 && |doc.blocks| <= 500
    && (forall i :: 0 <= i < |doc.fields| ==> ValidField(doc.fields[i]))
    && (forall t :: 0 <= t < |doc.tables| ==> ValidTable(doc.tables[t]))
    && (forall i :: 0 <= i < |doc.blocks| ==> ValidBlock(doc.blocks[i]))
  }

  /** `model_validate` */
  function FromJson(j: Json): Option<Document> {
    var doc :- Read(j);
    if Valid(doc) then Some(doc) else None
  }

  // ---------- what is written is read ----------

  lemma {:induction false} EachIsRead<T>(s: seq<T>, write: T -> Json, read: Json -> Option<T>, n: nat)
    requires n <= |s| && forall x :: x in s ==> read(write(x)) == Some(x)
    ensures ReadEach(ArrayOf(s, write).items[..n], read) == Some(s[..n])
  {
    if n > 0 {
      EachIsRead(s, write, read, n - 1);
      var items := ArrayOf(s, write).items;
      assert items[..n][..n - 1] == items[..n - 1];
      assert s[n - 1] in s && s[..n] == s[..n - 1] + [s[n - 1]];
    }
  }

  lemma ArrayIsRead<T>(s: seq<T>, write: T -> Json, read: Json -> Option<T>)
    requires forall x :: x in s ==> read(write(x)) == Some(x)
    ensures ReadArray(ArrayOf(s, write), read) == Some(s)
  {
    EachIsRead(s, write, read, |s|);
    assert ArrayOf(s, write).items[..|s|] == ArrayOf(s, write).items && s[..|s|] == s;
  }

  lemma RegionIsRead(region: Option<Region>)
    ensures ReadRegion(RegionJson(region)) == Some(region)
  {
  }

  lemma FieldIsRead(f: Field)
    ensures ReadField(FieldJson(f)) == Some(f)
  {
    RegionIsRead(f.region);
  }

  lemma RowIsRead(r: Row)
    ensures ReadRow(RowJson(r)) == Some(r)
  {
    ArrayIsRead(r.cells, (c: Cell) => CellJson(c), c => ReadCell(c));
  }

  lemma TextsAreRead(texts: seq<string>)
    ensures ReadArray(ArrayOf(texts, (s: string) => String(s)), s => ReadString(s)) == Some(texts)
  {
    ArrayIsRead(texts, (s: string) => String(s), s => ReadString(s));
  }

  lemma PagesAreRead(pages: seq<int>)
    ensures ReadArray(ArrayOf(pages, (n: int) => Number(n)), n => ReadInt(n)) == Some(pages)
  {
    ArrayIsRead(pages, (n: int) => Number(n), n => ReadInt(n));
  }

  lemma RowsAreRead(rows: seq<Row>)
    ensures ReadArray(ArrayOf(rows, (r: Row) => RowJson(r)), r => ReadRow(r)) == Some(rows)
  {
    forall r | r in rows ensures ReadRow(RowJson(r)) == Some(r) {
      RowIsRead(r);
    }
    ArrayIsRead(rows, (r: Row) => RowJson(r), r => ReadRow(r));
  }

  lemma TableIsRead(t: Table)
    ensures ReadTable(TableJson(t)) == Some(t)
  {
    TextsAreRead(t.headers);
    RowsAreRead(t.rows);
    PagesAreRead(t.pages);
  }

  lemma BlockIsRead(b: Block)
    ensures ReadBlock(BlockJson(b)) == Some(b)
  {
    RegionIsRead(b.region);
  }

  lemma DocumentIsRead(doc: Document)
    ensures Read(ToJson(doc)) == Some(doc)
  {
    forall f | f in doc.fields ensures ReadField(FieldJson(f)) == Some(f) {
      FieldIsRead(f);
    }
    forall t | t in doc.tables ensures ReadTable(TableJson(t)) == Some(t) {
      TableIsRead(t);
    }
    forall b | b in doc.blocks ensures ReadBlock(BlockJson(b)) == Some(b) {
      BlockIsRead(b);
    }
    ArrayIsRead(doc.fields, (f: Field) => FieldJson(f), f => ReadField(f));
    ArrayIsRead(doc.tables, (t: Table) => TableJson(t), t => ReadTable(t));
    ArrayIsRead(doc.blocks, (b: Block) => BlockJson(b), b => ReadBlock(b));
  }

  /** A dumped document validates exactly when it is within the schema's bounds, and then to itself. */
  lemma DumpValidates(doc: Document)
    ensures FromJson(ToJson(doc)) == if Valid(doc) then Some(doc) else None
  {
    DocumentIsRead(doc);
  }
}
