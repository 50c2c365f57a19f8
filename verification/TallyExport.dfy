/** `build_reviewed_document`: what is exported, section by section, and that nothing is lost or repeated. */
module TallyExport {
  import opened Wrappers
  import opened ExtractionSchema
  import opened Sequences
  import opened Presentation
  import opened PresentationTheorems

  datatype ReviewedTable = ReviewedTable(title: Option<string>, headers: seq<string>, rows: seq<seq<string>>)
  datatype ReviewedSection = ReviewedSection(
    title: string, fields: seq<(string, string)>, tables: seq<ReviewedTable>, text: seq<string>)
  datatype ReviewedDocument = ReviewedDocument(documentType: string, sections: seq<ReviewedSection>)

  // ---------- lookups by id ----------

  /** A dictionary keyed by id keeps the last element with each id. */
  function LastWith<T>(s: seq<T>, idOf: T -> string, id: string): (r: Option<T>)
    ensures r.Some? ==> exists i :: 0 <= i < |s| && s[i] == r.value && idOf(s[i]) == id
    ensures r.None? ==> forall i :: 0 <= i < |s| ==> idOf(s[i]) != id
  {
    if s == [] then None
    else if idOf(s[|s| - 1]) == id then Some(s[|s| - 1])
    else LastWith(s[..|s| - 1], idOf, id)
  }

  function FieldWith(doc: Document, id: string): Option<Field> {
    LastWith(doc.fields, (f: Field) => f.id, id)
  }

  function TableWith(doc: Document, id: string): Option<Table> {
    LastWith(doc.tables, (t: Table) => t.id, id)
  }

  function BlockWith(doc: Document, id: string): Option<Block> {
    LastWith(doc.blocks, (b: Block) => b.id, id)
  }

  function CellValues(cells: seq<Cell>): seq<string> {
    seq(|cells|, c requires 0 <= c < |cells| => cells[c].value)
  }

  function Shown(table: Table): ReviewedTable {
    ReviewedTable(
      if table.title.Some? && table.title.value != "" then table.title else None,
      table.headers,
      seq(|table.rows|, r requires 0 <= r < |table.rows| => CellValues(table.rows[r].cells)))
  }

  // ---------- one section ----------

  function ListOf<T>(x: Option<T>): seq<T> {
    match x case None => [] case Some(v) => [v]
  }

  /** What the targets contribute, in order. */
  function Gather<T>(targets: seq<string>, pick: string -> Option<T>): seq<T> {
    if targets == [] then []
    else Gather(targets[..|targets| - 1], pick) + ListOf(pick(targets[|targets| - 1]))
  }

  function PickField(doc: Document, excluded: set<string>): string -> Option<(string, string)> {
    id =>
      if id in excluded then None
      else match FieldWith(doc, id) case None => None case Some(f) => Some((f.name, f.value))
  }

  function PickTable(doc: Document, excluded: set<string>): string -> Option<ReviewedTable> {
    id =>
      if id in excluded then None
      else match TableWith(doc, id) case None => None case Some(t) => Some(Shown(t))
  }

  function PickText(doc: Document, excluded: set<string>): string -> Option<string> {
    id =>
      if id in excluded then None
      else match BlockWith(doc, id) case None => None case Some(b) => Some(b.text)
  }

  function Reviewed(doc: Document, excluded: set<string>, section: Section): ReviewedSection {
    ReviewedSection(
      section.title,
      Gather(section.targets, PickField(doc, excluded)),
      Gather(section.targets, PickTable(doc, excluded)),
      Gather(section.targets, PickText(doc, excluded)))
  }

  predicate Blank(section: ReviewedSection) {
    section.fields == [] && section.tables == [] && section.text == []
  }

  function WithReviewed(doc: Document, excluded: set<string>, before: seq<ReviewedSection>, section: Section)
    : seq<ReviewedSection>
  {
    var reviewed := Reviewed(doc, excluded, section);
    if Blank(reviewed) then before else before + [reviewed]
  }

  function Reviewing(doc: Document, excluded: set<string>): (seq<ReviewedSection>, Section) -> seq<ReviewedSection> {
    (before, section) => WithReviewed(doc, excluded, before, section)
  }

  function ReviewedOf(doc: Document, presentation: Presentation): ReviewedDocument {
    var excluded := ToSet(presentation.excluded);
    ReviewedDocument(
      doc.documentType,
      Fold(presentation.sections, |presentation.sections|, [], Reviewing(doc, excluded)))
  }

  method GatherAll<T>(targets: seq<string>, pick: string -> Option<T>) returns (found: seq<T>)
    ensures found == Gather(targets, pick)
  {
    found := [];
    for i := 0 to |targets|
      invariant found == Gather(targets[..i], pick)
    {
      assert targets[..i + 1][..i] == targets[..i];
      var x := pick(targets[i]);
      if x.None? {
        continue;
      }
      found := found + [x.value];
    }
    assert targets[..|targets|] == targets;
  }

  method BuildSection(doc: Document, excluded: set<string>, section: Section) returns (reviewed: ReviewedSection)
    ensures reviewed == Reviewed(doc, excluded, section)
  {
    var fields := GatherAll(section.targets, PickField(doc, excluded));
    var tables := GatherAll(section.targets, PickTable(doc, excluded));
    var text := GatherAll(section.targets, PickText(doc, excluded));
    return ReviewedSection(section.title, fields, tables, text);
  }

  method AddSection(doc: Document, excluded: set<string>, before: seq<ReviewedSection>, section: Section)
    returns (sections: seq<ReviewedSection>)
    ensures sections == Reviewing(doc, excluded)(before, section)
  {
    var reviewed := BuildSection(doc, excluded, section);
    if Blank(reviewed) {
      return before;
    }
    return before + [reviewed];
  }

  method BuildSections(doc: Document, excluded: set<string>, presented: seq<Section>)
    returns (sections: seq<ReviewedSection>)
    ensures sections == Fold(presented, |presented|, [], Reviewing(doc, excluded))
  {
    sections := [];
    for i := 0 to |presented|
      invariant sections == Fold(presented, i, [], Reviewing(doc, excluded))
    {
      sections := AddSection(doc, excluded, sections, presented[i]);
    }
  }

  method BuildReviewedDocument(doc: Document, presentation: Presentation) returns (reviewed: ReviewedDocument)
    ensures reviewed == ReviewedOf(doc, presentation)
  {
    var sections := BuildSections(doc, ToSet(presentation.excluded), presentation.sections);
    return ReviewedDocument(doc.documentType, sections);
  }

  // ---------- what an export contains ----------

  datatype Item = FieldItem(field: (string, string)) | TableItem(table: ReviewedTable) | TextItem(text: string)

  function FieldItems(s: seq<(string, string)>): seq<Item> {
    seq(|s|, i requires 0 <= i < |s| => FieldItem(s[i]))
  }

  function TableItems(s: seq<ReviewedTable>): seq<Item> {
    seq(|s|, i requires 0 <= i < |s| => TableItem(s[i]))
  }

  function TextItems(s: seq<string>): seq<Item> {
    seq(|s|, i requires 0 <= i < |s| => TextItem(s[i]))
  }

  function ItemsIn(section: ReviewedSection): seq<Item> {
    FieldItems(section.fields) + TableItems(section.tables) + TextItems(section.text)
  }

  function AllItems(sections: seq<ReviewedSection>): seq<Item> {
    if sections == [] then [] else AllItems(sections[..|sections| - 1]) + ItemsIn(sections[|sections| - 1])
  }

  /** The item an observation is exported as. */
  function ItemAt(doc: Document, p: Position): Item
    requires Has(doc, p) && IsObservation(p)
  {
    match p
    case FieldAt(i) => FieldItem((doc.fields[i].name, doc.fields[i].value))
    case TableAt(t) => TableItem(Shown(doc.tables[t]))
    case BlockAt(i) => TextItem(doc.blocks[i].text)
  }

  /** An exported table shows the headers, every cell in its place, and the title unless it is empty. */
  predicate SameTable(doc: Document, t: nat, table: ReviewedTable)
    requires t < |doc.tables|
  {
    var rows := doc.tables[t].rows;
    && table.headers == doc.tables[t].headers
    && |table.rows| == |rows|
    && (forall r :: 0 <= r < |rows| ==> |table.rows[r]| == |rows[r].cells|)
    && (forall r, c :: 0 <= r < |rows| && 0 <= c < |rows[r].cells| ==> table.rows[r][c] == ValueAt(doc, CellAt(t, r, c)))
    && (table.title.None? <==> doc.tables[t].title in {None, Some("")})
    && (table.title.Some? ==> table.title == doc.tables[t].title)
  }

  /** The item shows everything a reader sees of the observation. */
  predicate ExportedAs(doc: Document, p: Position, item: Item)
    requires Has(doc, p) && IsObservation(p)
  {
    match p
    case FieldAt(i) => item.FieldItem? && item.field == (doc.fields[i].name, ValueAt(doc, p))
    case TableAt(t) => item.TableItem? && SameTable(doc, t, item.table)
    case BlockAt(_) => item.TextItem? && item.text == ValueAt(doc, p)
  }

  lemma SameTableIsShown(doc: Document, t: nat, table: ReviewedTable)
    requires t < |doc.tables|
    ensures SameTable(doc, t, table) <==> table == Shown(doc.tables[t])
  {
    var rows, shown := doc.tables[t].rows, Shown(doc.tables[t]);
    forall r, c | 0 <= r < |rows| && 0 <= c < |rows[r].cells| ensures shown.rows[r][c] == ValueAt(doc, CellAt(t, r, c)) {
    }
    if SameTable(doc, t, table) {
      forall r | 0 <= r < |rows| ensures table.rows[r] == shown.rows[r] {
        forall c | 0 <= c < |rows[r].cells| ensures table.rows[r][c] == shown.rows[r][c] {
          assert shown.rows[r][c] == ValueAt(doc, CellAt(t, r, c));
        }
      }
      assert table.rows == shown.rows;
    }
  }

  lemma ItemIsExported(doc: Document, p: Position, item: Item)
    requires Has(doc, p) && IsObservation(p)
    ensures ExportedAs(doc, p, item) <==> item == ItemAt(doc, p)
  {
    if p.TableAt? && item.TableItem? {
      SameTableIsShown(doc, p.t, item.table);
    }
  }

  /** The observation with an id. */
  ghost function PositionOf(doc: Document, id: string): (p: Position)
    requires Observed(doc, id)
    ensures Has(doc, p) && IsObservation(p) && IdAt(doc, p) == id
  {
    var p :| Has(doc, p) && IsObservation(p) && IdAt(doc, p) == id;
    p
  }

  ghost function ItemPick(doc: Document, excluded: set<string>): string -> Option<Item> {
    id => if id !in excluded && Observed(doc, id) then Some(ItemAt(doc, PositionOf(doc, id))) else None
  }

  /** The items of the targets that are observed and not excluded, in the order of the targets. */
  ghost function ItemsFor(doc: Document, excluded: set<string>, targets: seq<string>): seq<Item> {
    Gather(targets, ItemPick(doc, excluded))
  }

  /** The ids that are observed and not excluded, in order. */
  ghost function Exportable(doc: Document, excluded: set<string>, targets: seq<string>): seq<string> {
    Keep(targets, id => id !in excluded && Observed(doc, id))
  }

  /** One item for each id, in order, that shows the observation with this id. */
  ghost predicate ShowInOrder(doc: Document, ids: seq<string>, items: seq<Item>) {
    && |items| == |ids|
    && forall k, p :: 0 <= k < |ids| && Has(doc, p) && IsObservation(p) && IdAt(doc, p) == ids[k] ==>
         ExportedAs(doc, p, items[k])
  }

  /** What is gathered is what is picked for the targets that a pick exists for. */
  lemma {:induction false} GatherIsKept<T>(targets: seq<string>, pick: string -> Option<T>, picked: string -> bool)
    requires forall id :: pick(id).Some? <==> picked(id)
    ensures var kept := Keep(targets, picked);
            && |Gather(targets, pick)| == |kept|
            && forall k :: 0 <= k < |kept| ==> pick(kept[k]) == Some(Gather(targets, pick)[k])
  {
    if targets != [] {
      var front, last := targets[..|targets| - 1], targets[|targets| - 1];
      GatherIsKept(front, pick, picked);
      assert Gather(targets, pick) == Gather(front, pick) + ListOf(pick(last));
    }
  }

  /** The items for a list of targets show, in order, its observed and non-excluded ones. */
  lemma ItemsShowTheirTargets(doc: Document, excluded: set<string>, targets: seq<string>)
    requires UniqueIds(doc)
    ensures ShowInOrder(doc, Exportable(doc, excluded, targets), ItemsFor(doc, excluded, targets))
  {
    var ids, items := Exportable(doc, excluded, targets), ItemsFor(doc, excluded, targets);
    GatherIsKept(targets, ItemPick(doc, excluded), id => id !in excluded && Observed(doc, id));
    forall k, p | 0 <= k < |ids| && Has(doc, p) && IsObservation(p) && IdAt(doc, p) == ids[k]
      ensures ExportedAs(doc, p, items[k])
    {
      assert ItemPick(doc, excluded)(ids[k]) == Some(items[k]) && PositionOf(doc, ids[k]) == p;
      ItemIsExported(doc, p, items[k]);
    }
  }

  /** With unique ids, a target is found by exactly the lookup of its kind. */
  lemma LookupsAgree(doc: Document, id: string)
    requires UniqueIds(doc)
    ensures Observed(doc, id) ==>
              var p := PositionOf(doc, id);
              && FieldWith(doc, id) == (if p.FieldAt? then Some(doc.fields[p.i]) else None)
              && TableWith(doc, id) == (if p.TableAt? then Some(doc.tables[p.t]) else None)
              && BlockWith(doc, id) == (if p.BlockAt? then Some(doc.blocks[p.i]) else None)
    ensures !Observed(doc, id) ==> FieldWith(doc, id).None? && TableWith(doc, id).None? && BlockWith(doc, id).None?
  {
    forall i | 0 <= i < |doc.fields| && doc.fields[i].id == id
      ensures Observed(doc, id) && PositionOf(doc, id) == FieldAt(i)
    {
      assert Has(doc, FieldAt(i)) && IsObservation(FieldAt(i)) && IdAt(doc, FieldAt(i)) == id;
    }
    forall i | 0 <= i < |doc.tables| && doc.tables[i].id == id
      ensures Observed(doc, id) && PositionOf(doc, id) == TableAt(i)
    {
      assert Has(doc, TableAt(i)) && IsObservation(TableAt(i)) && IdAt(doc, TableAt(i)) == id;
    }
    forall i | 0 <= i < |doc.blocks| && doc.blocks[i].id == id
      ensures Observed(doc, id) && PositionOf(doc, id) == BlockAt(i)
    {
      assert Has(doc, BlockAt(i)) && IsObservation(BlockAt(i)) && IdAt(doc, BlockAt(i)) == id;
    }
  }

  /** One pick of an item is one pick from exactly one of the three lists. */
  predicate SamePick(
      field: Option<(string, string)>, table: Option<ReviewedTable>, text: Option<string>, item: Option<Item>) {
    match item
    case None => field.None? && table.None? && text.None?
    case Some(FieldItem(f)) => field == Some(f) && table.None? && text.None?
    case Some(TableItem(t)) => field.None? && table == Some(t) && text.None?
    case Some(TextItem(t)) => field.None? && table.None? && text == Some(t)
  }

  lemma PicksAgree(doc: Document, excluded: set<string>, id: string)
    requires UniqueIds(doc)
    ensures SamePick(PickField(doc, excluded)(id), PickTable(doc, excluded)(id), PickText(doc, excluded)(id),
                     ItemPick(doc, excluded)(id))
  {
    LookupsAgree(doc, id);
  }

  lemma OnePick(
    fields: seq<(string, string)>, tables: seq<ReviewedTable>, texts: seq<string>, items: seq<Item>,
    field: Option<(string, string)>, table: Option<ReviewedTable>, text: Option<string>, item: Option<Item>)
    requires SamePick(field, table, text, item)
    requires multiset(FieldItems(fields)) + multiset(TableItems(tables)) + multiset(TextItems(texts)) == multiset(items)
    ensures multiset(FieldItems(fields + ListOf(field))) + multiset(TableItems(tables + ListOf(table)))
            + multiset(TextItems(texts + ListOf(text))) == multiset(items + ListOf(item))
  {
    assert fields + [] == fields && tables + [] == tables && texts + [] == texts && items + [] == items;
    match item
    case None =>
    case Some(FieldItem(f)) => AppendField(fields, f);
    case Some(TableItem(t)) => AppendTable(tables, t);
    case Some(TextItem(t)) => AppendText(texts, t);
  }

  lemma {:induction false} PartsHoldTheItems(
    targets: seq<string>,
    field: string -> Option<(string, string)>, table: string -> Option<ReviewedTable>, text: string -> Option<string>,
    item: string -> Option<Item>)
    requires forall id :: SamePick(field(id), table(id), text(id), item(id))
    ensures multiset(FieldItems(Gather(targets, field))) + multiset(TableItems(Gather(targets, table)))
            + multiset(TextItems(Gather(targets, text))) == multiset(Gather(targets, item))
  {
    if targets != [] {
      var front, id := targets[..|targets| - 1], targets[|targets| - 1];
      PartsHoldTheItems(front, field, table, text, item);
      OnePick(Gather(front, field), Gather(front, table), Gather(front, text), Gather(front, item),
              field(id), table(id), text(id), item(id));
    }
  }

  lemma AppendField(s: seq<(string, string)>, f: (string, string))
    ensures multiset(FieldItems(s + [f])) == multiset(FieldItems(s)) + multiset{FieldItem(f)}
  {
    assert FieldItems(s + [f]) == FieldItems(s) + [FieldItem(f)];
  }

  lemma AppendTable(s: seq<ReviewedTable>, t: ReviewedTable)
    ensures multiset(TableItems(s + [t])) == multiset(TableItems(s)) + multiset{TableItem(t)}
  {
    assert TableItems(s + [t]) == TableItems(s) + [TableItem(t)];
  }

  lemma AppendText(s: seq<string>, t: string)
    ensures multiset(TextItems(s + [t])) == multiset(TextItems(s)) + multiset{TextItem(t)}
  {
    assert TextItems(s + [t]) == TextItems(s) + [TextItem(t)];
  }

  /** Each section exports exactly its observed, non-excluded targets. */
  lemma SectionsExportTheirTargets(doc: Document, excluded: set<string>, section: Section)
    requires UniqueIds(doc)
    ensures multiset(ItemsIn(Reviewed(doc, excluded, section))) == multiset(ItemsFor(doc, excluded, section.targets))
    ensures Blank(Reviewed(doc, excluded, section)) <==> ItemsFor(doc, excluded, section.targets) == []
  {
    var field, table, text, item :=
      PickField(doc, excluded), PickTable(doc, excluded), PickText(doc, excluded), ItemPick(doc, excluded);
    forall id ensures SamePick(field(id), table(id), text(id), item(id)) {
      PicksAgree(doc, excluded, id);
    }
    PartsHoldTheItems(section.targets, field, table, text, item);
    var items := ItemsIn(Reviewed(doc, excluded, section));
    assert |items| == |multiset(items)| == |multiset(ItemsFor(doc, excluded, section.targets))|;
  }

  lemma GatherGrows<T>(targets: seq<string>, id: string, pick: string -> Option<T>)
    ensures Gather(targets + [id], pick) == Gather(targets, pick) + ListOf(pick(id))
  {
    assert (targets + [id])[..|targets|] == targets;
  }

  lemma Regroup<T>(x: seq<T>, y: seq<T>, z: seq<T>)
    ensures x + y + z == x + (y + z)
  {
  }

  lemma {:induction false} GatherJoined<T>(a: seq<string>, b: seq<string>, pick: string -> Option<T>)
    ensures Gather(a + b, pick) == Gather(a, pick) + Gather(b, pick)
  {
    if b == [] {
      assert a + b == a;
    } else {
      var front, last := b[..|b| - 1], b[|b| - 1];
      calc {
        Gather(a + b, pick);
        { assert b == front + [last]; Regroup(a, front, [last]); }
        Gather(a + front + [last], pick);
        { GatherGrows(a + front, last, pick); }
        Gather(a + front, pick) + ListOf(pick(last));
        { GatherJoined(a, front, pick); }
        Gather(a, pick) + Gather(front, pick) + ListOf(pick(last));
        { Regroup(Gather(a, pick), Gather(front, pick), ListOf(pick(last))); }
        Gather(a, pick) + Gather(b, pick);
      }
    }
  }

  ghost predicate ExportsPrefix(
      doc: Document, excluded: set<string>, sections: seq<Section>, i: nat, done: seq<ReviewedSection>)
    requires i <= |sections|
  {
    multiset(AllItems(done)) == multiset(ItemsFor(doc, excluded, Targets(sections[..i])))
  }

  lemma ReviewOne(doc: Document, excluded: set<string>, sections: seq<Section>, i: nat, done: seq<ReviewedSection>)
    requires UniqueIds(doc) && i < |sections| && ExportsPrefix(doc, excluded, sections, i, done)
    ensures ExportsPrefix(doc, excluded, sections, i + 1, WithReviewed(doc, excluded, done, sections[i]))
  {
    var section := sections[i];
    assert sections[..i + 1] == sections[..i] + [section];
    TargetsGrow(sections[..i], section);
    GatherJoined(Targets(sections[..i]), section.targets, ItemPick(doc, excluded));
    SectionsExportTheirTargets(doc, excluded, section);
    var reviewed := Reviewed(doc, excluded, section);
    assert (done + [reviewed])[..|done|] == done;
    assert AllItems(done + [reviewed]) == AllItems(done) + ItemsIn(reviewed);
  }

  /** The export holds exactly the items of the listed, non-excluded targets. */
  lemma ExportConserves(doc: Document, presentation: Presentation)
    requires UniqueIds(doc)
    ensures var excluded, targets := ToSet(presentation.excluded), Targets(presentation.sections);
            && multiset(AllItems(ReviewedOf(doc, presentation).sections)) == multiset(ItemsFor(doc, excluded, targets))
            && ShowInOrder(doc, Exportable(doc, excluded, targets), ItemsFor(doc, excluded, targets))
  {
    ItemsShowTheirTargets(doc, ToSet(presentation.excluded), Targets(presentation.sections));
    var sections, excluded := presentation.sections, ToSet(presentation.excluded);
    var inv := (i: nat, done: seq<ReviewedSection>) => i <= |sections| && ExportsPrefix(doc, excluded, sections, i, done);
    forall done, i | 0 <= i < |sections| && inv(i, done) ensures inv(i + 1, Reviewing(doc, excluded)(done, sections[i])) {
      ReviewOne(doc, excluded, sections, i, done);
    }
    assert sections[..0] == [] && ExportsPrefix(doc, excluded, sections, 0, []);
    FoldKeeps(sections, |sections|, [], Reviewing(doc, excluded), inv);
    assert sections[..|sections|] == sections;
  }

  lemma {:induction false} ItemsAreCounted(doc: Document, excluded: set<string>, targets: seq<string>)
    requires forall id :: id in targets ==> Observed(doc, id)
    ensures |ItemsFor(doc, excluded, targets)| == |Keep(targets, id => id !in excluded)|
  {
    if targets != [] {
      ItemsAreCounted(doc, excluded, targets[..|targets| - 1]);
    }
  }

  lemma KeptCount(targets: seq<string>, excluded: seq<string>)
    requires NoDup(targets) && NoDup(excluded) && forall id :: id in excluded ==> id in targets
    ensures |Keep(targets, id => id !in ToSet(excluded))| == |targets| - |excluded|
  {
    var kept := Keep(targets, id => id !in ToSet(excluded));
    KeepMembers(targets, id => id !in ToSet(excluded));
    SetMembers(targets);
    SetMembers(excluded);
    SetMembers(kept);
    assert ToSet(kept) == ToSet(targets) - ToSet(excluded);
    assert ToSet(excluded) <= ToSet(targets);
    NoDupCounts(targets);
    NoDupCounts(excluded);
    NoDupCounts(kept);
  }

  /** From an exact cover, every observation is exported once unless excluded: known minus excluded items. */
  lemma ExportCount(doc: Document, presentation: Presentation)
    requires UniqueIds(doc) && ExactCover(doc, presentation.sections)
    requires NoDup(presentation.excluded) && forall id :: id in presentation.excluded ==> id in AllTargets(doc)
    ensures |AllItems(ReviewedOf(doc, presentation).sections)|
            == |doc.fields| + |doc.tables| + |doc.blocks| - |presentation.excluded|
  {
    var targets, excluded := Targets(presentation.sections), ToSet(presentation.excluded);
    TargetsAreTheObservations(doc);
    SetMembers(targets);
    SetMembers(AllTargets(doc));
    NoDupCounts(targets);
    NoDupCounts(AllTargets(doc));
    forall id | id in presentation.excluded ensures id in targets {
      assert id in ToSet(AllTargets(doc));
    }
    forall id | id in targets ensures Observed(doc, id) {
      assert id in ToSet(AllTargets(doc));
    }
    ExportConserves(doc, presentation);
    ItemsAreCounted(doc, excluded, targets);
    KeptCount(targets, presentation.excluded);
    var items := AllItems(ReviewedOf(doc, presentation).sections);
    assert |items| == |multiset(items)|;
    assert |multiset(ItemsFor(doc, excluded, targets))| == |ItemsFor(doc, excluded, targets)|;
  }
}
