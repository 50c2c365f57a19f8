/** The ids given to the observations of a finished document. */
module ObservationIds {
  import opened Decimal
  import opened ExtractionSchema

  function FieldId(i: nat): string {
    "field-" + Pad4(i + 1)
  }

  function TableId(t: nat): string {
    "table-" + Pad4(t + 1)
  }

  function RowId(t: nat, r: nat): string {
    TableId(t) + "-row-" + Pad4(r + 1)
  }

  function CellId(t: nat, r: nat, c: nat): string {
    TableId(t) + "-r" + Pad4(r + 1) + "-c" + Pad4(c + 1)
  }

  function BlockId(i: nat): string {
    "text-" + Pad4(i + 1)
  }

  function IdOf(p: Position): string {
    match p
    case FieldAt(i) => FieldId(i)
    case TableAt(t) => TableId(t)
    case RowAt(t, r) => RowId(t, r)
    case CellAt(t, r, c) => CellId(t, r, c)
    case BlockAt(i) => BlockId(i)
  }

  /** Every index below what four digits can count. */
  predicate Small(p: Position) {
    match p
    case FieldAt(i) => i < 9999
    case TableAt(t) => t < 9999
    case RowAt(t, r) => t < 9999 && r < 9999
    case CellAt(t, r, c) => t < 9999 && r < 9999 && c < 9999
    case BlockAt(i) => i < 9999
  }

  /** The indices that can be read back from an id of fixed width. */
  lemma PadIsInjective(a: nat, b: nat)
    ensures Pad4(a) == Pad4(b) ==> a == b
  {
    ParsePad4(a);
    ParsePad4(b);
  }

  /** What tells ids apart: their length, their fourth character, and their numerals. */
  lemma Shape(p: Position)
    requires Small(p)
    ensures |IdOf(p)| == match p
                         case FieldAt(_) => 10
                         case TableAt(_) => 10
                         case RowAt(_, _) => 19
                         case CellAt(_, _, _) => 22
                         case BlockAt(_) => 9
    ensures p.FieldAt? ==> IdOf(p)[0] == 'f' && IdOf(p)[6..] == Pad4(p.i + 1)
    ensures p.TableAt? ==> IdOf(p)[0] == 't' && IdOf(p)[6..] == Pad4(p.t + 1)
    ensures p.RowAt? ==> IdOf(p)[6..10] == Pad4(p.t + 1) && IdOf(p)[15..] == Pad4(p.r + 1)
    ensures p.BlockAt? ==> IdOf(p)[5..] == Pad4(p.i + 1)
  {
    match p
    case FieldAt(i) => Pad4Length(i + 1);
    case TableAt(t) => Pad4Length(t + 1);
    case RowAt(t, r) =>
      Pad4Length(t + 1);
      Pad4Length(r + 1);
    case CellAt(t, r, c) => CellShape(t, r, c);
    case BlockAt(i) => Pad4Length(i + 1);
  }

  lemma CellShape(t: nat, r: nat, c: nat)
    requires Small(CellAt(t, r, c))
    ensures |CellId(t, r, c)| == 22
    ensures CellId(t, r, c)[6..10] == Pad4(t + 1)
    ensures CellId(t, r, c)[12..16] == Pad4(r + 1)
    ensures CellId(t, r, c)[18..] == Pad4(c + 1)
  {
    Pad4Length(t + 1);
    Pad4Length(r + 1);
    Pad4Length(c + 1);
    var front := TableId(t) + "-r" + Pad4(r + 1);
    assert |front| == 16 && front[6..10] == Pad4(t + 1) && front[12..16] == Pad4(r + 1);
    assert CellId(t, r, c) == front + "-c" + Pad4(c + 1);
  }

  lemma CellIdsAreDistinct(p: Position, q: Position)
    requires Small(p) && Small(q) && p.CellAt? && q.CellAt? && IdOf(p) == IdOf(q)
    ensures p == q
  {
    CellShape(p.t, p.r, p.c);
    CellShape(q.t, q.r, q.c);
    PadIsInjective(p.t + 1, q.t + 1);
    PadIsInjective(p.r + 1, q.r + 1);
    PadIsInjective(p.c + 1, q.c + 1);
  }

  lemma OtherIdsAreDistinct(p: Position, q: Position)
    requires Small(p) && Small(q) && !p.CellAt? && !q.CellAt? && IdOf(p) == IdOf(q)
    ensures p == q
  {
    Shape(p);
    Shape(q);
    match p
    case FieldAt(i) => PadIsInjective(i + 1, q.i + 1);
    case TableAt(t) => PadIsInjective(t + 1, q.t + 1);
    case RowAt(t, r) =>
      PadIsInjective(t + 1, q.t + 1);
      PadIsInjective(r + 1, q.r + 1);
    case BlockAt(i) => PadIsInjective(i + 1, q.i + 1);
  }

  /** No two observations share an id. */
  lemma IdsAreDistinct(p: Position, q: Position)
    requires Small(p) && Small(q) && IdOf(p) == IdOf(q)
    ensures p == q
  {
    if p.CellAt? && q.CellAt? {
      CellIdsAreDistinct(p, q);
    } else if !p.CellAt? && !q.CellAt? {
      OtherIdsAreDistinct(p, q);
    } else {
      Shape(p);
      Shape(q);
    }
  }
}
