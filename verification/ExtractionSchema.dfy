/** What the model drafts, what is stored, and where an observation sits in it. */
module ExtractionSchema {
  import opened Wrappers

  /** The page of a field or a text block. */
  type pos = n: nat | n >= 1 witness 1

  /** The pages of a table: the schema asks for one at least, and does not bound it. */
  type Pages = s: seq<int> | s != [] witness [1]

  datatype Region = Region(x: nat, y: nat, width: nat, height: nat)

  datatype DraftField = DraftField(name: string, value: string, page: pos, region: Option<Region>)
  datatype DraftTable = DraftTable(title: Option<string>, headers: seq<string>, rows: seq<seq<string>>, pages: Pages)
  datatype DraftBlock = DraftBlock(text: string, page: pos, region: Option<Region>)
  datatype Draft = Draft(fields: seq<DraftField>, tables: seq<DraftTable>, blocks: seq<DraftBlock>)

  /** The bounds the draft schema enforces before anything below runs. */
  predicate DraftAccepted(draft: Draft) {
    && |draft.fields| <= 2000 && |draft.tables| <= 100 && |draft.blocks| <= 500
    && (forall f :: f in draft.fields ==> 1 <= |f.name| <= 500 && 1 <= |f.value| <= 20000 && RegionAccepted(f.region))
    && (forall b :: b in draft.blocks ==> 1 <= |b.text| <= 50000 && RegionAccepted(b.region))
    && (forall t :: t in draft.tables ==> TableAccepted(t))
  }

  predicate RegionAccepted(region: Option<Region>) {
    region.Some? ==> region.value.width > 0 && region.value.height > 0
  }

  predicate TableAccepted(table: DraftTable) {
    && (table.title.Some? ==> |table.title.value| <= 500)
    && 1 <= |table.headers| <= 100 && 1 <= |table.rows| <= 5000 && |table.pages| <= 100
    && (forall r :: r in table.rows ==> |r| == |table.headers| && RowAccepted(r))
  }

  predicate RowAccepted(row: seq<string>) {
    forall cell :: cell in row ==> |cell| <= 20000
  }

  datatype Field = Field(id: string, name: string, value: string, page: pos, region: Option<Region>)
  datatype Cell = Cell(id: string, value: string)
  datatype Row = Row(id: string, cells: seq<Cell>)
  datatype Table = Table(id: string, title: Option<string>, headers: seq<string>, rows: seq<Row>, pages: Pages)
  datatype Block = Block(id: string, text: string, page: pos, region: Option<Region>)
  datatype Document = Document(documentType: string, fields: seq<Field>, tables: seq<Table>, blocks: seq<Block>)

  datatype Position =
    FieldAt(i: nat) | TableAt(t: nat) | RowAt(t: nat, r: nat) | CellAt(t: nat, r: nat, c: nat) | BlockAt(i: nat)

  predicate Has(doc: Document, p: Position) {
    match p
    case FieldAt(i) => i < |doc.fields|
    case TableAt(t) => t < |doc.tables|
    case RowAt(t, r) => t < |doc.tables| && r < |doc.tables[t].rows|
    case CellAt(t, r, c) => t < |doc.tables| && r < |doc.tables[t].rows| && c < |doc.tables[t].rows[r].cells|
    case BlockAt(i) => i < |doc.blocks|
  }

  function IdAt(doc: Document, p: Position): string
    requires Has(doc, p)
  {
    match p
    case FieldAt(i) => doc.fields[i].id
    case TableAt(t) => doc.tables[t].id
    case RowAt(t, r) => doc.tables[t].rows[r].id
    case CellAt(t, r, c) => doc.tables[t].rows[r].cells[c].id
    case BlockAt(i) => doc.blocks[i].id
  }

  /** The positions a correction or a quality issue can name. */
  predicate IsValue(p: Position) {
    p.FieldAt? || p.CellAt? || p.BlockAt?
  }

  /** The positions a presentation section lists. */
  predicate IsObservation(p: Position) {
    p.FieldAt? || p.TableAt? || p.BlockAt?
  }

  ghost predicate UniqueIds(doc: Document) {
    forall p, q :: Has(doc, p) && Has(doc, q) && IdAt(doc, p) == IdAt(doc, q) ==> p == q
  }

  function ValueAt(doc: Document, p: Position): string
    requires Has(doc, p) && IsValue(p)
  {
    match p
    case FieldAt(i) => doc.fields[i].value
    case CellAt(t, r, c) => doc.tables[t].rows[r].cells[c].value
    case BlockAt(i) => doc.blocks[i].text
  }

  /** The document with the value of one observation replaced. */
  function WithValue(doc: Document, p: Position, v: string): Document
    requires Has(doc, p) && IsValue(p)
  {
    match p
    case FieldAt(i) => doc.(fields := doc.fields[i := doc.fields[i].(value := v)])
    case CellAt(t, r, c) =>
      var table := doc.tables[t];
      var row := table.rows[r];
      var cells := row.cells[c := row.cells[c].(value := v)];
      doc.(tables := doc.tables[t := table.(rows := table.rows[r := row.(cells := cells)])])
    case BlockAt(i) => doc.(blocks := doc.blocks[i := doc.blocks[i].(text := v)])
  }
}
