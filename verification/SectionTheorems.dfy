/** Where the sections of a presentation come from: what is listed where, under which title, and in which order. */
module SectionTheorems {
  import opened Wrappers
  import opened NormalizationTheorems
  import opened ExtractionSchema
  import opened TextRules
  import opened QualityDetectors
  import opened Sequences
  import opened Presentation
  import opened PresentationTheorems

  // ---------- the order of a document ----------

  /** The first page a field, table or text block is on. */
  predicate StartsOn(doc: Document, p: Position, page: int)
    requires Has(doc, p) && IsObservation(p)
  {
    match p
    case FieldAt(i) => doc.fields[i].page == page
    case TableAt(t) => page in doc.tables[t].pages && forall other :: other in doc.tables[t].pages ==> page <= other
    case BlockAt(i) => doc.blocks[i].page == page
  }

  /** On one page, fields come before tables and tables before text blocks, each in their own order. */
  predicate ComesBefore(p: Position, q: Position) {
    match p
    case FieldAt(i) => q.TableAt? || q.BlockAt? || (q.FieldAt? && i < q.i)
    case TableAt(t) => q.BlockAt? || (q.TableAt? && t < q.t)
    case BlockAt(i) => q.BlockAt? && i < q.i
    case _ => false
  }

  /** Pages first. */
  ghost predicate Precedes(doc: Document, p: Position, q: Position)
    requires Has(doc, p) && IsObservation(p) && Has(doc, q) && IsObservation(q)
  {
    exists m, n :: StartsOn(doc, p, m) && StartsOn(doc, q, n) && (m < n || (m == n && ComesBefore(p, q)))
  }

  predicate Stands(doc: Document, p: Position, id: string) {
    Has(doc, p) && IsObservation(p) && IdAt(doc, p) == id
  }

  ghost predicate InDocumentOrder(doc: Document, ids: seq<string>) {
    forall a, b, p, q :: 0 <= a < b < |ids| && Stands(doc, p, ids[a]) && Stands(doc, q, ids[b]) ==> Precedes(doc, p, q)
  }

  lemma SlotOfObservation(doc: Document, o: Observation, p: Position)
    requires UniqueIds(doc) && o in Observations(doc)
    requires Has(doc, p) && IsObservation(p) && IdAt(doc, p) == o.id
    ensures o == ObservationAt(doc, p)
  {
    var k :| 0 <= k < |Observations(doc)| && Observations(doc)[k] == o;
    assert IdAt(doc, Slot(doc, k)) == o.id;
  }

  lemma NotAfterPrecedes(doc: Document, p: Position, q: Position)
    requires Has(doc, p) && IsObservation(p) && Has(doc, q) && IsObservation(q) && p != q
    requires NotAfter(ObservationAt(doc, p), ObservationAt(doc, q))
    ensures Precedes(doc, p, q)
  {
    var m, n := ObservationAt(doc, p).page, ObservationAt(doc, q).page;
    assert StartsOn(doc, p, m) && StartsOn(doc, q, n);
  }

  /** The targets of a document run through its pages, and on each through fields, tables and text blocks. */
  lemma TargetsAreInOrder(doc: Document)
    requires UniqueIds(doc)
    ensures InDocumentOrder(doc, AllTargets(doc))
  {
    var all, sorted, ids := Observations(doc), Sorted(Observations(doc)), AllTargets(doc);
    SortedIsInOrder(all);
    Permuted(all, sorted);
    TargetsAreTheObservations(doc);
    forall a, b, p, q | 0 <= a < b < |ids| && Stands(doc, p, ids[a]) && Stands(doc, q, ids[b])
      ensures Precedes(doc, p, q)
    {
      assert sorted[a] in sorted && sorted[b] in sorted && ids[a] == sorted[a].id && ids[b] == sorted[b].id;
      SlotOfObservation(doc, sorted[a], p);
      SlotOfObservation(doc, sorted[b], q);
      NotAfterPrecedes(doc, p, q);
    }
  }

  lemma KeptStaysInOrder(doc: Document, ids: seq<string>, keeps: string -> bool)
    requires InDocumentOrder(doc, ids)
    ensures InDocumentOrder(doc, Keep(ids, keeps))
  {
    var kept := Keep(ids, keeps);
    forall a, b, p, q | 0 <= a < b < |kept| && Stands(doc, p, kept[a]) && Stands(doc, q, kept[b])
      ensures Precedes(doc, p, q)
    {
      KeptInOrder(ids, keeps, a, b);
      assert ids[KeptIndex(ids, keeps, a)] == kept[a] && ids[KeptIndex(ids, keeps, b)] == kept[b];
    }
  }

  // ---------- drafted sections ----------

  /** One of the first n paths of a drafted section names the observation. */
  predicate NamedBy(resolve: string -> Option<string>, paths: seq<string>, n: nat, id: string)
    requires n <= |paths|
  {
    exists j :: 0 <= j < n && resolve(paths[j]) == Some(id)
  }

  predicate NamedIn(resolve: string -> Option<string>, section: DraftSection, id: string) {
    NamedBy(resolve, section.paths, |section.paths|, id)
  }

  /** One of the first n drafted sections names the observation. */
  predicate NamedBefore(resolve: string -> Option<string>, drafted: seq<DraftSection>, n: nat, id: string)
    requires n <= |drafted|
  {
    exists i :: 0 <= i < n && NamedIn(resolve, drafted[i], id)
  }

  /** Whoever is listed first is also named first. */
  predicate FollowsPaths(resolve: string -> Option<string>, paths: seq<string>, n: nat, targets: seq<string>)
    requires n <= |paths|
  {
    forall a, b, j :: 0 <= a < b < |targets| && 0 <= j < n && resolve(paths[j]) == Some(targets[b]) ==>
      NamedBy(resolve, paths, j, targets[a])
  }

  /** The targets are what drafted section i is the first to name, once each and in the order of its paths. */
  ghost predicate ListsWhatItNamesFirst(
    resolve: string -> Option<string>, drafted: seq<DraftSection>, i: nat, targets: seq<string>)
    requires i < |drafted|
  {
    && NoDup(targets)
    && (forall id :: id in targets <==> NamedIn(resolve, drafted[i], id) && !NamedBefore(resolve, drafted, i, id))
    && FollowsPaths(resolve, drafted[i].paths, |drafted[i].paths|, targets)
  }

  /** A section bears its drafted title without the white space around it, or a stock title if nothing is left. */
  ghost predicate TitledAfter(drafted: string, title: string) {
    (IsTrimmed(drafted, title) && title != "") || (IsTrimmed(drafted, "") && title == "Document section")
  }

  /** Section k, made from drafted section i. */
  ghost predicate IsGroup(
    resolve: string -> Option<string>, drafted: seq<DraftSection>, i: nat, k: nat, section: Section)
  {
    && i < |drafted| && section.number == k + 1 && section.targets != []
    && TitledAfter(drafted[i].title, section.title)
    && ListsWhatItNamesFirst(resolve, drafted, i, section.targets)
  }

  ghost predicate NamesNothingNew(resolve: string -> Option<string>, drafted: seq<DraftSection>, i: nat) {
    i < |drafted| && forall id :: NamedIn(resolve, drafted[i], id) ==> NamedBefore(resolve, drafted, i, id)
  }

  /** The sections are those of the drafted ones that name something first, in their order. */
  ghost predicate GroupedAs(
    resolve: string -> Option<string>, drafted: seq<DraftSection>, sections: seq<Section>, from: seq<nat>)
  {
    Drawn(|drafted|, sections, from,
          (i: nat, k: nat, section: Section) => IsGroup(resolve, drafted, i, k, section),
          (i: nat) => NamesNothingNew(resolve, drafted, i))
  }

  lemma {:induction false} PickedInOrder(
      resolve: string -> Option<string>, paths: seq<string>, n: nat, taken: set<string>)
    requires n <= |paths|
    ensures var targets := Picked(resolve, paths, n, taken);
            && NoDup(targets) && FollowsPaths(resolve, paths, n, targets)
            && forall id :: id in targets <==> NamedBy(resolve, paths, n, id) && id !in taken
  {
    if n > 0 {
      PickedInOrder(resolve, paths, n - 1, taken);
      OnePathMore(resolve, paths, n, taken);
    }
  }

  lemma OnePathMore(resolve: string -> Option<string>, paths: seq<string>, n: nat, taken: set<string>)
    requires 0 < n <= |paths|
    requires var before := Picked(resolve, paths, n - 1, taken);
             && NoDup(before) && FollowsPaths(resolve, paths, n - 1, before)
             && forall id :: id in before <==> NamedBy(resolve, paths, n - 1, id) && id !in taken
    ensures var targets := Picked(resolve, paths, n, taken);
            && NoDup(targets) && FollowsPaths(resolve, paths, n, targets)
            && forall id :: id in targets <==> NamedBy(resolve, paths, n, id) && id !in taken
  {
    var before, targets := Picked(resolve, paths, n - 1, taken), Picked(resolve, paths, n, taken);
    forall id
      ensures NamedBy(resolve, paths, n, id) <==>
                NamedBy(resolve, paths, n - 1, id) || resolve(paths[n - 1]) == Some(id)
    {
    }
    forall a, b, j | 0 <= a < b < |targets| && 0 <= j < n && resolve(paths[j]) == Some(targets[b])
      ensures NamedBy(resolve, paths, j, targets[a])
    {
      assert targets[a] == before[a] && before[a] in before;
    }
  }

  lemma TargetsOfNext(sections: seq<Section>, section: Section)
    ensures forall id :: id in Targets(sections + [section]) <==> id in Targets(sections) || id in section.targets
  {
    TargetsGrow(sections, section);
  }

  lemma TitleIsTrimmed(title: string)
    ensures TitledAfter(title, SectionTitle(title))
  {
    TrimmedWithFeed(title, title);
  }

  /** What the first n drafted sections name is listed. */
  ghost predicate ListedUpTo(
    resolve: string -> Option<string>, drafted: seq<DraftSection>, n: nat, sections: seq<Section>)
  {
    n <= |drafted| && forall id :: id in Targets(sections) <==> NamedBefore(resolve, drafted, n, id)
  }

  lemma OneGroupMore(resolve: string -> Option<string>, drafted: seq<DraftSection>, n: nat, sections: seq<Section>)
    requires n < |drafted| && ListedUpTo(resolve, drafted, n, sections)
    ensures var next := WithGroup(resolve, sections, drafted[n]);
            && (|| (next == sections && NamesNothingNew(resolve, drafted, n))
                || (&& |next| == |sections| + 1 && next[..|sections|] == sections
                    && IsGroup(resolve, drafted, n, |sections|, next[|sections|])))
            && ListedUpTo(resolve, drafted, n + 1, next)
  {
    var section, taken := drafted[n], ToSet(Targets(sections));
    var targets := Picked(resolve, section.paths, |section.paths|, taken);
    PickedInOrder(resolve, section.paths, |section.paths|, taken);
    SetMembers(Targets(sections));
    NamedByOneMore(resolve, drafted, n);
    assert ListsWhatItNamesFirst(resolve, drafted, n, targets);
    if targets == [] {
      assert NamesNothingNew(resolve, drafted, n);
    } else {
      TitleIsTrimmed(section.title);
      TargetsOfNext(sections, Section(|sections| + 1, SectionTitle(section.title), targets));
    }
  }

  lemma NamedByOneMore(resolve: string -> Option<string>, drafted: seq<DraftSection>, n: nat)
    requires n < |drafted|
    ensures forall id :: NamedBefore(resolve, drafted, n + 1, id) <==>
                           NamedBefore(resolve, drafted, n, id) || NamedIn(resolve, drafted[n], id)
  {
  }

  lemma GroupsListWhatIsNamed(resolve: string -> Option<string>, drafted: seq<DraftSection>, n: nat)
    requires n <= |drafted|
    ensures ListedUpTo(resolve, drafted, n, Fold(drafted, n, [], Grouping(resolve)))
  {
    var listed := (i: nat, sections: seq<Section>) => ListedUpTo(resolve, drafted, i, sections);
    forall before, i: nat | i < n && listed(i, before) ensures listed(i + 1, Grouping(resolve)(before, drafted[i])) {
      OneGroupMore(resolve, drafted, i, before);
    }
    FoldKeeps(drafted, n, [], Grouping(resolve), listed);
  }

  lemma GroupsFollowTheDraft(resolve: string -> Option<string>, drafted: seq<DraftSection>) returns (from: seq<nat>)
    ensures GroupedAs(resolve, drafted, Grouped(resolve, drafted), from)
  {
    var made := (i: nat, k: nat, section: Section) => IsGroup(resolve, drafted, i, k, section);
    var skipped := (i: nat) => NamesNothingNew(resolve, drafted, i);
    forall i | 0 <= i < |drafted|
      ensures StepAt(drafted, i, Grouping(resolve), made, skipped)
    {
      GroupsListWhatIsNamed(resolve, drafted, i);
      OneGroupMore(resolve, drafted, i, Fold(drafted, i, [], Grouping(resolve)));
    }
    from := FoldIsDrawn(drafted, |drafted|, Grouping(resolve), made, skipped);
  }

  // ---------- the last section ----------

  /** A last section, if anything is left: all observations not listed before, in the order of the document. */
  ghost predicate CompletedBy(doc: Document, grouped: seq<Section>, sections: seq<Section>) {
    var n := |grouped|;
    && n <= |sections| <= n + 1 && sections[..n] == grouped
    && (|sections| == n ==> forall id :: Observed(doc, id) ==> id in Targets(grouped))
    && (|sections| == n + 1 ==>
          && sections[n].number == n + 1 && sections[n].targets != []
          && sections[n].title == (if n == 0 then "Document details" else "Additional information")
          && NoDup(sections[n].targets) && InDocumentOrder(doc, sections[n].targets)
          && forall id :: id in sections[n].targets <==> Observed(doc, id) && id !in Targets(grouped))
  }

  lemma RestIsCompletion(doc: Document, grouped: seq<Section>)
    requires UniqueIds(doc)
    ensures CompletedBy(doc, grouped, WithRest(grouped, Ungrouped(doc, grouped)))
  {
    RestIsNew(doc, grouped);
    SetMembers(Targets(grouped));
    TargetsAreTheObservations(doc);
    TargetsAreInOrder(doc);
    KeptStaysInOrder(doc, AllTargets(doc), id => id !in ToSet(Targets(grouped)));
  }

  /**
   Every observation is in the section of the first drafted section that names it, under its title and in the order
   of its paths; what none names is in the last section, by page, kind and position.
   */
  lemma SectionsFollowTheDraft(doc: Document, draft: Option<seq<DraftSection>>) returns (from: seq<nat>)
    requires UniqueIds(doc)
    ensures var drafted := if draft.Some? then draft.value else [];
            var presentation := FinalPresentation(doc, draft);
            && presentation.excluded == [] && |from| <= |presentation.sections|
            && GroupedAs(Resolver(doc), drafted, presentation.sections[..|from|], from)
            && CompletedBy(doc, presentation.sections[..|from|], presentation.sections)
  {
    var drafted := if draft.Some? then draft.value else [];
    var grouped := Grouped(Resolver(doc), drafted);
    from := GroupsFollowTheDraft(Resolver(doc), drafted);
    RestIsCompletion(doc, grouped);
    assert WithRest(grouped, Ungrouped(doc, grouped))[..|from|] == grouped;
  }

  // ---------- reading back ----------

  /** One of the first n stored sections lists the id. */
  predicate ListedBefore(stored: seq<Section>, n: nat, id: string)
    requires n <= |stored|
  {
    exists i :: 0 <= i < n && id in stored[i].targets
  }

  /** What a stored section is the first to list of the document's observations, in its order, repetitions included. */
  function ListedFirst(doc: Document, stored: seq<Section>, i: nat): seq<string>
    requires i < |stored|
  {
    Keep(stored[i].targets, id => id in AllTargets(doc) && !ListedBefore(stored, i, id))
  }

  /** Section k, read from stored section i. */
  predicate IsRead(doc: Document, stored: seq<Section>, i: nat, k: nat, section: Section) {
    && i < |stored| && section == Section(k + 1, stored[i].title, ListedFirst(doc, stored, i)) && section.targets != []
  }

  predicate ListsNothingNew(doc: Document, stored: seq<Section>, i: nat) {
    i < |stored| && ListedFirst(doc, stored, i) == []
  }

  /** The sections are those of the stored ones that list something first, renumbered. */
  ghost predicate ReadAs(doc: Document, stored: seq<Section>, sections: seq<Section>, from: seq<nat>) {
    Drawn(|stored|, sections, from,
          (i: nat, k: nat, section: Section) => IsRead(doc, stored, i, k, section),
          (i: nat) => ListsNothingNew(doc, stored, i))
  }

  /** What the first n stored sections list of the document's observations is listed. */
  ghost predicate KnownUpTo(doc: Document, stored: seq<Section>, n: nat, sections: seq<Section>) {
    n <= |stored| && forall id :: id in Targets(sections) <==> id in AllTargets(doc) && ListedBefore(stored, n, id)
  }

  lemma OneStoredMore(doc: Document, stored: seq<Section>, n: nat, sections: seq<Section>)
    requires n < |stored| && KnownUpTo(doc, stored, n, sections)
    ensures var next := WithKnown(ToSet(AllTargets(doc)), sections, stored[n]);
            && (|| (next == sections && ListsNothingNew(doc, stored, n))
                || (&& |next| == |sections| + 1 && next[..|sections|] == sections
                    && IsRead(doc, stored, n, |sections|, next[|sections|])))
            && KnownUpTo(doc, stored, n + 1, next)
  {
    var known, taken := ToSet(AllTargets(doc)), ToSet(Targets(sections));
    SetMembers(AllTargets(doc));
    SetMembers(Targets(sections));
    KeepSame(stored[n].targets, id => id in known && id !in taken,
             id => id in AllTargets(doc) && !ListedBefore(stored, n, id));
    KeepMembers(stored[n].targets, id => id in AllTargets(doc) && !ListedBefore(stored, n, id));
    TargetsOfNext(sections, Section(|sections| + 1, stored[n].title, ListedFirst(doc, stored, n)));
    ListedByOneMore(stored, n);
  }

  lemma ListedByOneMore(stored: seq<Section>, n: nat)
    requires n < |stored|
    ensures forall id :: ListedBefore(stored, n + 1, id) <==> ListedBefore(stored, n, id) || id in stored[n].targets
  {
  }

  lemma ReadingListsWhatIsKnown(doc: Document, stored: seq<Section>, n: nat)
    requires n <= |stored|
    ensures KnownUpTo(doc, stored, n, Fold(stored, n, [], Knowing(ToSet(AllTargets(doc)))))
  {
    var step := Knowing(ToSet(AllTargets(doc)));
    var listed := (i: nat, sections: seq<Section>) => KnownUpTo(doc, stored, i, sections);
    forall before, i: nat | i < n && listed(i, before) ensures listed(i + 1, step(before, stored[i])) {
      OneStoredMore(doc, stored, i, before);
    }
    FoldKeeps(stored, n, [], step, listed);
  }

  lemma ReadingFollowsTheStored(doc: Document, stored: seq<Section>) returns (from: seq<nat>)
    ensures ReadAs(doc, stored, KnownSections(stored, ToSet(AllTargets(doc))), from)
  {
    var step := Knowing(ToSet(AllTargets(doc)));
    var made := (i: nat, k: nat, section: Section) => IsRead(doc, stored, i, k, section);
    var skipped := (i: nat) => ListsNothingNew(doc, stored, i);
    forall i | 0 <= i < |stored|
      ensures StepAt(stored, i, step, made, skipped)
    {
      ReadingListsWhatIsKnown(doc, stored, i);
      OneStoredMore(doc, stored, i, Fold(stored, i, [], step));
    }
    from := FoldIsDrawn(stored, |stored|, step, made, skipped);
  }

  /**
   What is read back of a valid presentation: every stored section without what it does not list first, under its
   title, then one more section for what none lists; the exclusions that are still observed, in order.
   */
  lemma ReadingFollowsStorage(doc: Document, stored: Presentation) returns (from: seq<nat>)
    requires UniqueIds(doc) && ValidPresentation(stored) && CoercedPresentation(Stored(stored), doc).Some?
    ensures var read := CoercedPresentation(Stored(stored), doc).value;
            && |from| <= |read.sections|
            && ReadAs(doc, stored.sections, read.sections[..|from|], from)
            && CompletedBy(doc, read.sections[..|from|], read.sections)
            && read.excluded == Keep(stored.excluded, id => id in AllTargets(doc))
  {
    from := ReadingFollowsTheStored(doc, stored.sections);
    var known := ToSet(AllTargets(doc));
    var sections := KnownSections(stored.sections, known);
    RestIsCompletion(doc, sections);
    SetMembers(AllTargets(doc));
    KeepSame(stored.excluded, id => id in known, id => id in AllTargets(doc));
    assert WithRest(sections, Ungrouped(doc, sections))[..|from|] == sections;
  }

  /** Nothing stored, and something the schema rejects, are read as no sections at all: one lists the whole document. */
  lemma UnreadableIsEmpty(doc: Document, stored: StoredPresentation)
    requires UniqueIds(doc) && (stored.Stored? ==> !ValidPresentation(stored.presentation))
    ensures var read := CoercedPresentation(stored, doc);
            read.Some? && read.value.excluded == [] && CompletedBy(doc, [], read.value.sections)
  {
    RestIsCompletion(doc, []);
    assert KnownSections([], ToSet(AllTargets(doc))) == [];
  }

  // ---------- removing boilerplate ----------

  /** The id of a boilerplate block. */
  predicate OfBoilerplate(rules: Rules, doc: Document, id: string) {
    exists i :: 0 <= i < |doc.blocks| && doc.blocks[i].id == id && Boilerplate(rules, doc.blocks[i].text)
  }

  predicate IsCleaned(sections: seq<Section>, stays: string -> bool, i: nat, section: Section) {
    && i < |sections| && section == sections[i].(targets := Keep(sections[i].targets, stays)) && section.targets != []
  }

  predicate IsEmptied(sections: seq<Section>, stays: string -> bool, i: nat) {
    i < |sections| && Keep(sections[i].targets, stays) == []
  }

  /** The sections without some targets; those of which nothing is left are dropped. */
  ghost predicate SectionsWithout(sections: seq<Section>, stays: string -> bool, clean: seq<Section>, from: seq<nat>) {
    Drawn(|sections|, clean, from,
          (i: nat, k: nat, section: Section) => IsCleaned(sections, stays, i, section),
          (i: nat) => IsEmptied(sections, stays, i))
  }

  lemma CleaningFollows(sections: seq<Section>, removed: set<string>, stays: string -> bool) returns (from: seq<nat>)
    requires forall id :: stays(id) <==> id !in removed
    ensures SectionsWithout(sections, stays, Cleaned(sections, removed), from)
  {
    var step := Cleaning(removed);
    var made := (i: nat, k: nat, section: Section) => IsCleaned(sections, stays, i, section);
    var skipped := (i: nat) => IsEmptied(sections, stays, i);
    forall i | 0 <= i < |sections|
      ensures StepAt(sections, i, step, made, skipped)
    {
      KeepSame(sections[i].targets, id => id !in removed, stays);
    }
    from := FoldIsDrawn(sections, |sections|, step, made, skipped);
  }

  /**
   Removal takes away exactly the boilerplate blocks, wherever they are named, and leaves everything else as it was
   and in order.
   */
  lemma RemovalIsExact(rules: Rules, doc: Document, presentation: Presentation, issues: seq<Issue>)
    returns (from: seq<nat>)
    requires UniqueIds(doc) && NoEmptySection(presentation.sections)
    ensures var (clean, shown, left) := Removed(rules, doc, presentation, issues);
            var stays := id => !OfBoilerplate(rules, doc, id);
            && clean == doc.(blocks := Keep(doc.blocks, (b: Block) => !Boilerplate(rules, b.text)))
            && SectionsWithout(presentation.sections, stays, shown.sections, from)
            && shown.excluded == Keep(presentation.excluded, stays)
            && left == Keep(issues, (issue: Issue) => stays(issue.target))
  {
    var removed := RemovedIds(rules, doc);
    var stays := id => !OfBoilerplate(rules, doc, id);
    var staying := (issue: Issue) => stays(issue.target);
    forall id ensures stays(id) <==> id !in removed {
    }
    BlocksAreTold(rules, doc);
    KeepSame(doc.blocks, (b: Block) => b.id !in removed, (b: Block) => !Boilerplate(rules, b.text));
    KeepSame(presentation.excluded, id => id !in removed, stays);
    KeepSame(issues, (issue: Issue) => issue.target !in removed, staying);
    from := CleaningFollows(presentation.sections, removed, stays);
    if removed == {} {
      KeepAll(doc.blocks, (b: Block) => b.id !in removed);
      KeepAll(presentation.excluded, stays);
      KeepAll(issues, staying);
      from := NothingCleaned(presentation.sections, stays);
    }
  }

  lemma BlocksAreTold(rules: Rules, doc: Document)
    requires UniqueIds(doc)
    ensures forall b :: b in doc.blocks ==> (b.id !in RemovedIds(rules, doc) <==> !Boilerplate(rules, b.text))
  {
    forall i, j | 0 <= i < |doc.blocks| && 0 <= j < |doc.blocks| && doc.blocks[i].id == doc.blocks[j].id
      ensures i == j
    {
      assert Has(doc, BlockAt(i)) && Has(doc, BlockAt(j)) && IdAt(doc, BlockAt(i)) == IdAt(doc, BlockAt(j));
    }
  }

  lemma NothingCleaned(sections: seq<Section>, stays: string -> bool) returns (from: seq<nat>)
    requires NoEmptySection(sections) && forall id :: stays(id)
    ensures SectionsWithout(sections, stays, sections, from)
  {
    from := seq(|sections|, k => k);
    forall k | 0 <= k < |sections| ensures Keep(sections[k].targets, stays) == sections[k].targets && from[k] == k {
      KeepAll(sections[k].targets, stays);
    }
    forall i | 0 <= i < |sections| ensures i in from {
      assert from[i] == i;
    }
  }
}
