/** What a reviewed document shows of a document: which items, how often, in which section, and in which order. */
module HandoffTheorems {
  import opened Wrappers
  import opened ExtractionSchema
  import opened Sequences
  import opened Presentation
  import opened TallyExport

  // ---------- order ----------

  /**
   For each target that is one of the ids and not excluded, in order, the element that shows the part with this id:
   `shows` tells what the i-th part is shown as.
   */
  predicate ListsInOrder<T>(
    targets: seq<string>, excluded: set<string>, ids: seq<string>, shown: seq<T>, shows: (nat, T) -> bool)
  {
    var listed := Keep(targets, id => id !in excluded && id in ids);
    && |shown| == |listed|
    && forall k, i :: 0 <= k < |listed| && 0 <= i < |ids| && ids[i] == listed[k] ==> shows(i, shown[k])
  }

  function FieldIds(doc: Document): seq<string> {
    seq(|doc.fields|, i requires 0 <= i < |doc.fields| => doc.fields[i].id)
  }

  function TableIds(doc: Document): seq<string> {
    seq(|doc.tables|, i requires 0 <= i < |doc.tables| => doc.tables[i].id)
  }

  function BlockIds(doc: Document): seq<string> {
    seq(|doc.blocks|, i requires 0 <= i < |doc.blocks| => doc.blocks[i].id)
  }

  predicate ShowsField(doc: Document, i: nat, shown: (string, string)) {
    i < |doc.fields| && shown == (doc.fields[i].name, doc.fields[i].value)
  }

  predicate ShowsTable(doc: Document, i: nat, shown: ReviewedTable) {
    i < |doc.tables| && SameTable(doc, i, shown)
  }

  predicate ShowsText(doc: Document, i: nat, shown: string) {
    i < |doc.blocks| && shown == doc.blocks[i].text
  }

  /** Under the section's title, its fields, tables and texts that are not excluded, in the order of its targets. */
  predicate Reviews(doc: Document, excluded: set<string>, section: Section, reviewed: ReviewedSection) {
    && reviewed.title == section.title && !Blank(reviewed)
    && ListsInOrder(section.targets, excluded, FieldIds(doc), reviewed.fields, (i, f) => ShowsField(doc, i, f))
    && ListsInOrder(section.targets, excluded, TableIds(doc), reviewed.tables, (i, t) => ShowsTable(doc, i, t))
    && ListsInOrder(section.targets, excluded, BlockIds(doc), reviewed.text, (i, t) => ShowsText(doc, i, t))
  }

  ghost predicate NothingToShow(doc: Document, excluded: set<string>, section: Section) {
    Exportable(doc, excluded, section.targets) == []
  }

  lemma GatheredInOrder<T>(
      targets: seq<string>, excluded: set<string>, ids: seq<string>, pick: string -> Option<T>, shows: (nat, T) -> bool)
    requires forall id :: pick(id).Some? <==> id !in excluded && id in ids
    requires forall id, i :: pick(id).Some? && 0 <= i < |ids| && ids[i] == id ==> shows(i, pick(id).value)
    ensures ListsInOrder(targets, excluded, ids, Gather(targets, pick), shows)
  {
    var listed := Keep(targets, id => id !in excluded && id in ids);
    GatherIsKept(targets, pick, id => id !in excluded && id in ids);
    forall k, i | 0 <= k < |listed| && 0 <= i < |ids| && ids[i] == listed[k]
      ensures shows(i, Gather(targets, pick)[k])
    {
      assert pick(listed[k]) == Some(Gather(targets, pick)[k]);
    }
  }

  lemma FieldsInOrder(doc: Document, excluded: set<string>, targets: seq<string>)
    requires UniqueIds(doc)
    ensures ListsInOrder(targets, excluded, FieldIds(doc), Gather(targets, PickField(doc, excluded)),
                         (i, f) => ShowsField(doc, i, f))
  {
    var ids, pick := FieldIds(doc), PickField(doc, excluded);
    forall id, i | pick(id).Some? && 0 <= i < |ids| && ids[i] == id ensures ShowsField(doc, i, pick(id).value) {
      assert Has(doc, FieldAt(i)) && IdAt(doc, FieldAt(i)) == id;
      var j :| 0 <= j < |doc.fields| && doc.fields[j] == FieldWith(doc, id).value && doc.fields[j].id == id;
      assert Has(doc, FieldAt(j)) && IdAt(doc, FieldAt(j)) == id;
    }
    forall id ensures pick(id).Some? <==> id !in excluded && id in ids {
      assert forall i :: 0 <= i < |ids| ==> ids[i] == doc.fields[i].id;
    }
    GatheredInOrder(targets, excluded, ids, pick, (i, f) => ShowsField(doc, i, f));
  }

  lemma TablesInOrder(doc: Document, excluded: set<string>, targets: seq<string>)
    requires UniqueIds(doc)
    ensures ListsInOrder(targets, excluded, TableIds(doc), Gather(targets, PickTable(doc, excluded)),
                         (i, t) => ShowsTable(doc, i, t))
  {
    var ids, pick := TableIds(doc), PickTable(doc, excluded);
    forall id, i | pick(id).Some? && 0 <= i < |ids| && ids[i] == id ensures ShowsTable(doc, i, pick(id).value) {
      assert Has(doc, TableAt(i)) && IdAt(doc, TableAt(i)) == id;
      var j :| 0 <= j < |doc.tables| && doc.tables[j] == TableWith(doc, id).value && doc.tables[j].id == id;
      assert Has(doc, TableAt(j)) && IdAt(doc, TableAt(j)) == id;
      SameTableIsShown(doc, i, pick(id).value);
    }
    forall id ensures pick(id).Some? <==> id !in excluded && id in ids {
      assert forall i :: 0 <= i < |ids| ==> ids[i] == doc.tables[i].id;
    }
    GatheredInOrder(targets, excluded, ids, pick, (i, t) => ShowsTable(doc, i, t));
  }

  lemma TextInOrder(doc: Document, excluded: set<string>, targets: seq<string>)
    requires UniqueIds(doc)
    ensures ListsInOrder(targets, excluded, BlockIds(doc), Gather(targets, PickText(doc, excluded)),
                         (i, t) => ShowsText(doc, i, t))
  {
    var ids, pick := BlockIds(doc), PickText(doc, excluded);
    forall id, i | pick(id).Some? && 0 <= i < |ids| && ids[i] == id ensures ShowsText(doc, i, pick(id).value) {
      assert Has(doc, BlockAt(i)) && IdAt(doc, BlockAt(i)) == id;
      var j :| 0 <= j < |doc.blocks| && doc.blocks[j] == BlockWith(doc, id).value && doc.blocks[j].id == id;
      assert Has(doc, BlockAt(j)) && IdAt(doc, BlockAt(j)) == id;
    }
    forall id ensures pick(id).Some? <==> id !in excluded && id in ids {
      assert forall i :: 0 <= i < |ids| ==> ids[i] == doc.blocks[i].id;
    }
    GatheredInOrder(targets, excluded, ids, pick, (i, t) => ShowsText(doc, i, t));
  }

  lemma SectionIsReviewed(doc: Document, excluded: set<string>, section: Section)
    requires UniqueIds(doc)
    ensures var reviewed := Reviewed(doc, excluded, section);
            if Blank(reviewed) then NothingToShow(doc, excluded, section) else Reviews(doc, excluded, section, reviewed)
  {
    FieldsInOrder(doc, excluded, section.targets);
    TablesInOrder(doc, excluded, section.targets);
    TextInOrder(doc, excluded, section.targets);
    SectionsExportTheirTargets(doc, excluded, section);
    ItemsShowTheirTargets(doc, excluded, section.targets);
  }

  ghost predicate ReviewsInOrder(
    doc: Document, presentation: Presentation, reviewed: seq<ReviewedSection>, from: seq<nat>)
  {
    var sections, excluded := presentation.sections, ToSet(presentation.excluded);
    Drawn(|sections|, reviewed, from,
          (i: nat, k: nat, s: ReviewedSection) => i < |sections| && Reviews(doc, excluded, sections[i], s),
          (i: nat) => i < |sections| && NothingToShow(doc, excluded, sections[i]))
  }

  /** The document's type, and the presented sections in order; only sections with nothing to show are left out. */
  ghost predicate FollowsSections(doc: Document, presentation: Presentation, reviewed: ReviewedDocument) {
    && reviewed.documentType == doc.documentType
    && exists from :: ReviewsInOrder(doc, presentation, reviewed.sections, from)
  }

  /**
   A reviewed document has the type of the document and its presented sections in order, each under its title with its
   own fields, tables and texts in the order of its targets.
   */
  lemma SectionsAreExportedInOrder(doc: Document, presentation: Presentation)
    requires UniqueIds(doc)
    ensures FollowsSections(doc, presentation, ReviewedOf(doc, presentation))
  {
    var sections, excluded := presentation.sections, ToSet(presentation.excluded);
    var made := (i: nat, k: nat, s: ReviewedSection) => i < |sections| && Reviews(doc, excluded, sections[i], s);
    var skipped := (i: nat) => i < |sections| && NothingToShow(doc, excluded, sections[i]);
    forall i | 0 <= i < |sections| ensures StepAt(sections, i, Reviewing(doc, excluded), made, skipped) {
      SectionIsReviewed(doc, excluded, sections[i]);
    }
    var from := FoldIsDrawn(sections, |sections|, Reviewing(doc, excluded), made, skipped);
    assert ReviewsInOrder(doc, presentation, ReviewedOf(doc, presentation).sections, from);
  }

  // ---------- how often ----------

  /** The k-th observation is not excluded, and is exported as the item. */
  predicate IsShownAs(doc: Document, excluded: set<string>, item: Item, k: nat) {
    && k < |doc.fields| + |doc.tables| + |doc.blocks|
    && IdAt(doc, Slot(doc, k)) !in excluded && ExportedAs(doc, Slot(doc, k), item)
  }

  function Places(n: nat, counts: nat -> bool): set<nat> {
    set k: nat | k < n && counts(k)
  }

  /** The numbers of the observations that are not excluded and are exported as the item. */
  function ShownAs(doc: Document, excluded: set<string>, item: Item): set<nat> {
    Places(|doc.fields| + |doc.tables| + |doc.blocks|, (k: nat) => IsShownAs(doc, excluded, item, k))
  }

  /** The items are one for each observation that is not excluded: any item occurs once for each it shows. */
  ghost predicate OneForEach(doc: Document, excluded: set<string>, items: seq<Item>) {
    forall item :: multiset(items)[item] == |ShownAs(doc, excluded, item)|
  }

  function SlotIds(doc: Document, n: nat): seq<string>
    requires n <= |doc.fields| + |doc.tables| + |doc.blocks|
  {
    seq(n, k requires 0 <= k < n => IdAt(doc, Slot(doc, k)))
  }

  lemma SlotIsPicked(doc: Document, excluded: set<string>, k: nat, item: Item)
    requires UniqueIds(doc) && k < |doc.fields| + |doc.tables| + |doc.blocks|
    ensures var id := IdAt(doc, Slot(doc, k));
            ItemPick(doc, excluded)(id) == Some(item) <==> id !in excluded && ExportedAs(doc, Slot(doc, k), item)
  {
    var p := Slot(doc, k);
    assert Observed(doc, IdAt(doc, p)) && PositionOf(doc, IdAt(doc, p)) == p;
    ItemIsExported(doc, p, item);
  }

  lemma OnePlaceMore(n: nat, counts: nat -> bool)
    ensures |Places(n + 1, counts)| == |Places(n, counts)| + (if counts(n) then 1 else 0)
  {
    if counts(n) {
      assert Places(n + 1, counts) == Places(n, counts) + {n};
    } else {
      assert Places(n + 1, counts) == Places(n, counts);
    }
  }

  lemma OnePickMore(before: seq<Item>, pick: Option<Item>, item: Item)
    ensures multiset(before + ListOf(pick))[item] == multiset(before)[item] + (if pick == Some(item) then 1 else 0)
  {
    assert pick.None? ==> before + [] == before;
  }

  lemma {:induction false} PicksAreCounted(
      ids: seq<string>, pick: string -> Option<Item>, item: Item, counts: nat -> bool)
    requires forall k :: 0 <= k < |ids| ==> (counts(k) <==> pick(ids[k]) == Some(item))
    ensures multiset(Gather(ids, pick))[item] == |Places(|ids|, counts)|
  {
    if ids == [] {
      assert Places(0, counts) == {};
    } else {
      var front, id := ids[..|ids| - 1], ids[|ids| - 1];
      PicksAreCounted(front, pick, item, counts);
      assert ids == front + [id];
      GatherGrows(front, id, pick);
      OnePickMore(Gather(front, pick), pick(id), item);
      OnePlaceMore(|front|, counts);
    }
  }

  lemma ItemIsCounted(doc: Document, excluded: set<string>, item: Item, ids: seq<string>, pick: string -> Option<Item>)
    requires |ids| == |doc.fields| + |doc.tables| + |doc.blocks|
    requires forall k :: 0 <= k < |ids| ==> (IsShownAs(doc, excluded, item, k) <==> pick(ids[k]) == Some(item))
    ensures multiset(Gather(ids, pick))[item] == |ShownAs(doc, excluded, item)|
  {
    var counts := (k: nat) => IsShownAs(doc, excluded, item, k);
    PicksAreCounted(ids, pick, item, counts);
    assert ShownAs(doc, excluded, item) == Places(|ids|, counts);
  }

  lemma SlotsAreOneForEach(doc: Document, excluded: set<string>)
    requires UniqueIds(doc)
    ensures OneForEach(doc, excluded, ItemsFor(doc, excluded, SlotIds(doc, |doc.fields| + |doc.tables| + |doc.blocks|)))
  {
    var ids, pick := SlotIds(doc, |doc.fields| + |doc.tables| + |doc.blocks|), ItemPick(doc, excluded);
    forall item ensures multiset(Gather(ids, pick))[item] == |ShownAs(doc, excluded, item)| {
      forall k | 0 <= k < |ids| ensures IsShownAs(doc, excluded, item, k) <==> pick(ids[k]) == Some(item) {
        SlotIsPicked(doc, excluded, k, item);
      }
      ItemIsCounted(doc, excluded, item, ids, pick);
    }
  }

  lemma IdsJoin(a: seq<Observation>, b: seq<Observation>)
    ensures multiset(IdsOf(a + b)) == multiset(IdsOf(a)) + multiset(IdsOf(b))
  {
    assert IdsOf(a + b) == IdsOf(a) + IdsOf(b);
  }

  lemma {:induction false} InsertedId(o: Observation, s: seq<Observation>)
    ensures multiset(IdsOf(Insert(o, s))) == multiset{o.id} + multiset(IdsOf(s))
  {
    assert IdsOf([o]) == [o.id];
    if s == [] || NotAfter(o, s[0]) {
      IdsJoin([o], s);
    } else {
      InsertedId(o, s[1..]);
      IdsJoin([s[0]], Insert(o, s[1..]));
      IdsJoin([s[0]], s[1..]);
      assert s == [s[0]] + s[1..];
    }
  }

  lemma {:induction false} SortingKeepsIds(s: seq<Observation>)
    ensures multiset(IdsOf(Sorted(s))) == multiset(IdsOf(s))
  {
    if s != [] {
      SortingKeepsIds(s[1..]);
      InsertedId(s[0], Sorted(s[1..]));
      IdsJoin([s[0]], s[1..]);
      assert s == [s[0]] + s[1..] && IdsOf([s[0]]) == [s[0].id];
    }
  }

  lemma TargetsAreTheSlots(doc: Document)
    ensures multiset(AllTargets(doc)) == multiset(SlotIds(doc, |doc.fields| + |doc.tables| + |doc.blocks|))
  {
    SortingKeepsIds(Observations(doc));
    assert IdsOf(Observations(doc)) == SlotIds(doc, |doc.fields| + |doc.tables| + |doc.blocks|);
  }
}
