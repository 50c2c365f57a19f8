/** From a draft to an export: along every review history, what is exported is what was not excluded. */
module ExportTheorems {
  import opened Wrappers
  import opened Corrections
  import opened ExtractionSchema
  import opened TextRules
  import opened QualityDetectors
  import Extraction
  import opened Sequences
  import opened Presentation
  import opened PresentationTheorems
  import opened PresentationStorage
  import opened TallyExport
  import opened HandoffTheorems
  import opened DocumentJson
  import opened StoredExtraction
  import opened StoredExtractionTheorems
  import opened Pipeline
  import opened Review
  import opened ReviewTheorems
  import opened CorrectionTheorems

  // ---------- a selection, stored and read back ----------

  lemma SelectionSettles(doc: Document, read: Presentation, excluded: seq<string>, changed: Presentation)
    requires Bounded(doc) && UniqueIds(doc) && Settled(doc, read) && ValidPresentation(read)
    requires SelectionEffect(read, excluded) == Ok(Some(changed))
    ensures Settled(doc, changed)
    ensures ValidPresentation(changed) <==> NoDup(changed.excluded)
  {
    var known := ToSet(AllTargets(doc));
    SelectionIsExact(read, excluded);
    SetMembers(changed.excluded);
    TargetsOfPrefix(read.sections, |read.sections|);
    assert read.sections[..|read.sections|] == read.sections;
    SetMembers(Targets(read.sections));
    forall id | id in changed.excluded ensures id in known {
      assert id in ToSet(Targets(read.sections));
      var k :| 0 <= k < |read.sections| && id in read.sections[k].targets;
      assert ProperSection(known, read.sections, k);
    }
    if NoDup(changed.excluded) {
      FewerThanTargets(doc, changed.excluded);
    }
  }

  lemma FewerThanTargets(doc: Document, ids: seq<string>)
    requires UniqueIds(doc) && NoDup(ids) && forall id :: id in ids ==> id in ToSet(AllTargets(doc))
    ensures |ids| <= |doc.fields| + |doc.tables| + |doc.blocks|
  {
    TargetsAreTheObservations(doc);
    NoDupCounts(ids);
    NoDupCounts(AllTargets(doc));
    SetMembers(ids);
    assert ToSet(ids) <= ToSet(AllTargets(doc));
    SubsetIsSmaller(ToSet(ids), ToSet(AllTargets(doc)));
  }

  lemma SubsetIsSmaller<T>(a: set<T>, b: set<T>)
    requires a <= b
    ensures |a| <= |b|
  {
    assert b == a + (b - a);
  }

  /** An accepted selection is read back as it was stored exactly when the sections list no excluded target twice. */
  lemma SelectionIsReadBack(
    doc: Document, stored: StoredPresentation, read: Presentation, excluded: seq<string>, changed: Presentation)
    requires Bounded(doc) && UniqueIds(doc) && CoercedPresentation(stored, doc) == Some(read)
    requires SelectionEffect(read, excluded) == Ok(Some(changed))
    ensures CoercedPresentation(Stored(changed), doc) == Some(changed) <==>
              RepeatFree(Targets(read.sections), id => id in ToSet(excluded))
  {
    ReadingSettles(stored, doc);
    ReadingStaysValid(stored, doc);
    SelectionSettles(doc, read, excluded, changed);
    SettledAreFixed(doc, changed);
    ExclusionsRepeatExactly(read, excluded, changed);
  }

  lemma ExclusionsRepeatExactly(read: Presentation, excluded: seq<string>, changed: Presentation)
    requires SelectionEffect(read, excluded) == Ok(Some(changed))
    ensures NoDup(changed.excluded) <==> RepeatFree(Targets(read.sections), id => id in ToSet(excluded))
  {
    SelectionIsExact(read, excluded);
    KeepRepeats(Targets(read.sections), id => id in ToSet(excluded));
  }

  /** Excluding an observation that its section lists twice is accepted, and forgotten at the next reading. */
  lemma RepeatedExclusionIsForgotten(x: string, y: string)
    requires x != y
    ensures var doc, read := TwoFields(x, y), Repeating(x, y);
            && CoercedPresentation(Stored(read), doc) == Some(read)
            && SelectionEffect(read, [x]) == Ok(Some(read.(excluded := [x, x])))
            && CoercedPresentation(Stored(read.(excluded := [x, x])), doc).Some?
            && CoercedPresentation(Stored(read.(excluded := [x, x])), doc).value.excluded == []
  {
    var read := Repeating(x, y);
    RepeatedObservationsStay(x, y);
    OneSectionTargets(read.sections[0]);
    ExcludedTwice(x, y, read);
    assert [x, x][0] == [x, x][1];
  }

  lemma ExcludedTwice(x: string, y: string, read: Presentation)
    requires x != y && Targets(read.sections) == [x, x, y] && read.excluded == []
    ensures SelectionEffect(read, [x]) == Ok(Some(read.(excluded := [x, x])))
  {
    SetMembers([x]);
    SetMembers([x, x, y]);
    assert y in ToSet([x, x, y]) && y !in ToSet([x]);
    KeptTwice(x, y, id => id in ToSet([x]));
  }

  lemma KeptTwice(x: string, y: string, wanted: string -> bool)
    requires wanted(x) && !wanted(y)
    ensures Keep([x, x, y], wanted) == [x, x]
  {
    KeepAll([x, x], wanted);
    KeepNone([y], wanted);
    KeepSplits([x, x], [y], wanted);
    assert [x, x, y] == [x, x] + [y];
  }

  // ---------- results under review ----------

  /**
   A stored result is sound and covered by its sections. Corrections may have put anything the schema accepts into its
   values, boilerplate included, but no other ids.
   */
  ghost predicate Reviewable(rules: Rules, row: Record, stored: Document, doc: Document, shown: Presentation) {
    && GoodLog(row) && row.canonical == ToJson(stored) && Shows(row, doc)
    && Sound(rules, stored) && Valid(doc) && UniqueIds(doc) && SameShape(stored, doc)
    && row.presentation == Stored(shown) && Covers(stored, shown)
  }

  ghost predicate Covers(doc: Document, shown: Presentation) {
    && ValidPresentation(shown) && ExactCover(doc, shown.sections)
    && forall id :: id in shown.excluded ==> id in AllTargets(doc)
  }

  lemma SameShapeSameObservations(a: Document, b: Document)
    requires SameShape(a, b)
    ensures ToSet(AllTargets(a)) == ToSet(AllTargets(b))
    ensures forall id :: id in AllTargets(a) <==> id in AllTargets(b)
  {
    TargetsAreTheObservations(a);
    TargetsAreTheObservations(b);
    forall id ensures id in AllTargets(a) <==> id in AllTargets(b) {
      if Observed(a, id) {
        var p :| Has(a, p) && IsObservation(p) && IdAt(a, p) == id;
        assert Has(b, p) && IdAt(b, p) == id;
      }
      if Observed(b, id) {
        var p :| Has(b, p) && IsObservation(p) && IdAt(b, p) == id;
        assert Has(a, p) && IdAt(a, p) == id;
      }
    }
    SetMembers(AllTargets(a));
    SetMembers(AllTargets(b));
  }

  lemma {:induction false} RenumberedTargets(sections: seq<Section>)
    ensures Targets(Renumbered(sections)) == Targets(sections)
  {
    if sections != [] {
      var front := sections[..|sections| - 1];
      RenumberedTargets(front);
      assert Renumbered(sections)[..|sections| - 1] == Renumbered(front);
    }
  }

  /** What the handlers read of a sound document and its sections. */
  lemma SoundDataIsRead(rules: Rules, doc: Document, shown: Presentation)
    requires Sound(rules, doc) && Covers(doc, shown)
    ensures var reading, n := StandardReading(rules), NormalizedDocument(rules, doc);
            && reading.coerce(ToJson(doc)) == Some(n)
            && reading.present(Stored(shown), n) == Some(Presentation(Renumbered(shown.sections), shown.excluded))
  {
    SoundResultsAreReadBack(rules, doc, shown);
  }

  /** A changed selection still covers. */
  lemma SelectionCovers(doc: Document, shown: Presentation, excluded: seq<string>, changed: Presentation)
    requires UniqueIds(doc) && Bounded(doc) && Covers(doc, shown)
    requires SelectionEffect(Presentation(Renumbered(shown.sections), shown.excluded), excluded) == Ok(Some(changed))
    ensures Covers(doc, changed)
  {
    RenumberedTargets(shown.sections);
    SelectionIsExact(Presentation(Renumbered(shown.sections), shown.excluded), excluded);
    SetMembers(changed.excluded);
    SetMembers(Targets(shown.sections));
    SetMembers(AllTargets(doc));
    assert changed.sections == Renumbered(shown.sections);
    forall id | id in changed.excluded ensures id in AllTargets(doc) {
      assert id in ToSet(Targets(shown.sections));
    }
    FewerThanTargets(doc, changed.excluded);
  }

  // ---------- every request keeps a result reviewable ----------

  lemma CorrectionStaysReviewable(
    rules: Rules, row: Record, stored: Document, doc: Document, shown: Presentation, changes: seq<Change>)
    returns (next: Document)
    requires Reviewable(rules, row, stored, doc, shown) && !row.status.Approved?
    ensures Reviewable(rules, Corrected(StandardReading(rules), row, row.version, changes).0, stored, next, shown)
  {
    CorrectionsLand(rules, row, doc, changes);
    var n := NormalizedDocument(rules, doc);
    var outcome := Corrected(StandardReading(rules), row, row.version, changes).1;
    next := if outcome == Done then Placed(n, doc, changes) else doc;
    PlacingKeepsShape(n, doc, changes);
    SameShapeSameTargets(doc, next, "");
    ShapesCompose(stored, doc, next);
  }

  lemma ShapesCompose(a: Document, b: Document, c: Document)
    requires SameShape(a, b) && (c == b || SameShape(b, c))
    ensures SameShape(a, c)
  {
  }

  lemma SelectionEffectOf(
    reading: Reading, canonical: Json, presentation: StoredPresentation, excluded: seq<string>, doc: Document,
    read: Presentation)
    requires reading.coerce(canonical) == Some(doc) && reading.present(presentation, doc) == Some(read)
    ensures SelectionOver(reading, canonical, presentation, excluded) == SelectionEffect(read, excluded)
  {
  }

  /** The answer to a selection, from the sections as they are read. */
  lemma SelectionOutcome(
    rules: Rules, row: Record, stored: Document, doc: Document, shown: Presentation, expected: nat,
    excluded: seq<string>)
    requires Reviewable(rules, row, stored, doc, shown)
    ensures var read := Presentation(Renumbered(shown.sections), shown.excluded);
            Selected(StandardReading(rules), row, expected, excluded)
            == SelectionAnswer(row, expected, SelectionEffect(read, excluded))
  {
    SoundDataIsRead(rules, stored, shown);
    SelectionEffectOf(StandardReading(rules), row.canonical, row.presentation, excluded,
                      NormalizedDocument(rules, stored), Presentation(Renumbered(shown.sections), shown.excluded));
  }

  lemma SelectionStaysReviewable(
    rules: Rules, row: Record, stored: Document, doc: Document, shown: Presentation, expected: nat,
    excluded: seq<string>)
    returns (next: Presentation)
    requires Reviewable(rules, row, stored, doc, shown)
    ensures Reviewable(rules, Selected(StandardReading(rules), row, expected, excluded).0, stored, doc, next)
  {
    next := shown;
    SelectionOutcome(rules, row, stored, doc, shown, expected, excluded);
    var effect := SelectionEffect(Presentation(Renumbered(shown.sections), shown.excluded), excluded);
    if SelectionAnswer(row, expected, effect).0 != row {
      next := effect.value.value;
      SelectionCovers(stored, shown, excluded, next);
    }
  }

  /** Only the content of a row matters, not its status. */
  lemma ContentStaysReviewable(
    rules: Rules, row: Record, next: Record, stored: Document, doc: Document, shown: Presentation)
    requires Reviewable(rules, row, stored, doc, shown)
    requires next.canonical == row.canonical && next.log == row.log && next.presentation == row.presentation
    ensures Reviewable(rules, next, stored, doc, shown)
  {
  }

  lemma ReviewableStep(
    rules: Rules, row: Record, stored: Document, doc: Document, shown: Presentation, request: Request)
    returns (next: Document, left: Presentation)
    requires Reviewable(rules, row, stored, doc, shown)
    ensures Reviewable(rules, Handle(StandardReading(rules), row, request).0, stored, next, left)
  {
    next, left := doc, shown;
    match request
    case Correct(expected, changes) =>
      if !row.status.Approved? && row.version == expected {
        next := CorrectionStaysReviewable(rules, row, stored, doc, shown, changes);
      }
    case Select(expected, excluded) =>
      left := SelectionStaysReviewable(rules, row, stored, doc, shown, expected, excluded);
    case Judge(expected, verdict, user) =>
      ContentStaysReviewable(rules, row, Judged(row, expected, verdict, user).0, stored, doc, shown);
  }

  ghost predicate StaysReviewable(rules: Rules, stored: Document, row: Record) {
    exists doc, shown :: Reviewable(rules, row, stored, doc, shown)
  }

  lemma ReviewableRequest(rules: Rules, stored: Document, row: Record, request: Request)
    requires StaysReviewable(rules, stored, row)
    ensures StaysReviewable(rules, stored, Handle(StandardReading(rules), row, request).0)
  {
    var doc, shown :| Reviewable(rules, row, stored, doc, shown);
    var next, left := ReviewableStep(rules, row, stored, doc, shown, request);
  }

  lemma ReviewableAlways(rules: Rules, stored: Document, row: Record, requests: seq<Request>, n: nat)
    requires StaysReviewable(rules, stored, row) && n <= |requests|
    ensures StaysReviewable(rules, stored, At(StandardReading(rules), row, requests, n))
  {
    var inv := (r: Record) => StaysReviewable(rules, stored, r);
    forall i, r | 0 <= i < |requests| && inv(r) ensures inv(Handle(StandardReading(rules), r, requests[i]).0) {
      ReviewableRequest(rules, stored, r, requests[i]);
    }
    RequestsKeep(StandardReading(rules), row, requests, n, inv);
  }

  // ---------- what is exported ----------

  lemma GatherWithout<T>(before: seq<string>, x: string, behind: seq<string>, pick: string -> Option<T>)
    ensures multiset(Gather(before + ([x] + behind), pick))
            == multiset(Gather(before + behind, pick)) + multiset(Gather([x], pick))
  {
    GatherJoined(before, [x] + behind, pick);
    GatherJoined([x], behind, pick);
    GatherJoined(before, behind, pick);
  }

  lemma {:induction false} GatherPermuted<T>(a: seq<string>, b: seq<string>, pick: string -> Option<T>)
    requires multiset(a) == multiset(b)
    ensures multiset(Gather(a, pick)) == multiset(Gather(b, pick))
    decreases |a|
  {
    if a == [] {
      Permuted(a, b);
    } else {
      var front, x := a[..|a| - 1], a[|a| - 1];
      assert a == front + [x];
      var before, behind := TakeOut(front, x, b);
      GatherPermuted(front, before + behind, pick);
      GatherJoined(front, [x], pick);
      GatherWithout(before, x, behind, pick);
    }
  }

  lemma TakeOut(front: seq<string>, x: string, b: seq<string>) returns (before: seq<string>, behind: seq<string>)
    requires multiset(front + [x]) == multiset(b)
    ensures b == before + ([x] + behind) && multiset(front) == multiset(before + behind)
  {
    assert x in multiset(front + [x]) && x in multiset(b);
    var k :| 0 <= k < |b| && b[k] == x;
    before, behind := b[..k], b[k + 1..];
    assert b == before + ([x] + behind);
    assert multiset(b) == multiset(before) + (multiset{x} + multiset(behind));
    SameAfterRemoval(multiset(front), multiset(before + behind), x);
  }

  lemma SameAfterRemoval(a: multiset<string>, b: multiset<string>, x: string)
    requires a + multiset{x} == b + multiset{x}
    ensures a == b
  {
    assert a == a + multiset{x} - multiset{x};
  }

  lemma SameSetSameBag(a: seq<string>, b: seq<string>)
    requires NoDup(a) && NoDup(b) && ToSet(a) == ToSet(b)
    ensures multiset(a) == multiset(b)
  {
    NoDupIsCountOne(a);
    NoDupIsCountOne(b);
    SetMembers(a);
    SetMembers(b);
    forall x ensures multiset(a)[x] == multiset(b)[x] {
      assert x in a <==> x in multiset(a);
      assert x in b <==> x in multiset(b);
      assert x in ToSet(a) <==> x in ToSet(b);
    }
  }

  /**
   The export holds exactly one item for every observation of the document as it is read that is not excluded, in the
   sections and the order of the presentation as it is read.
   */
  ghost predicate HoldsTheRest(rules: Rules, exported: ReviewedDocument, doc: Document, shown: Presentation) {
    var n, items := NormalizedDocument(rules, doc), AllItems(exported.sections);
    var excluded, read := ToSet(shown.excluded), CoercedPresentation(Stored(shown), n);
    && OneForEach(n, excluded, items)
    && |items| == |ToSet(AllTargets(n)) - excluded|
    && read.Some? && FollowsSections(n, read.value, exported)
  }

  lemma CoveredExport(n: Document, read: Presentation)
    requires UniqueIds(n) && ExactCover(n, read.sections) && NoDup(read.excluded)
    requires forall id :: id in read.excluded ==> id in AllTargets(n)
    ensures var items := AllItems(ReviewedOf(n, read).sections);
            && multiset(items) == multiset(ItemsFor(n, ToSet(read.excluded), AllTargets(n)))
            && |items| == |AllTargets(n)| - |ToSet(read.excluded)|
  {
    TargetsAreTheObservations(n);
    ExportConserves(n, read);
    SameSetSameBag(Targets(read.sections), AllTargets(n));
    GatherPermuted(Targets(read.sections), AllTargets(n), ItemPick(n, ToSet(read.excluded)));
    ExportCount(n, read);
    NoDupCounts(read.excluded);
  }

  lemma {:induction false} GatherAlike<T>(ids: seq<string>, a: string -> Option<T>, b: string -> Option<T>)
    requires forall id :: id in ids ==> a(id) == b(id)
    ensures Gather(ids, a) == Gather(ids, b)
  {
    if ids != [] {
      GatherAlike(ids[..|ids| - 1], a, b);
    }
  }

  /** Exclusions of what the document does not show make no difference. */
  lemma OnlyShownExclusionsCount(n: Document, excluded: seq<string>)
    requires UniqueIds(n)
    ensures var kept := Keep(excluded, id => id in ToSet(AllTargets(n)));
            && ItemsFor(n, ToSet(kept), AllTargets(n)) == ItemsFor(n, ToSet(excluded), AllTargets(n))
            && |AllTargets(n)| - |ToSet(kept)| == |ToSet(AllTargets(n)) - ToSet(excluded)|
  {
    var all := AllTargets(n);
    var kept := Keep(excluded, id => id in ToSet(all));
    KeptMembers(all, excluded);
    GatherAlike(all, ItemPick(n, ToSet(kept)), ItemPick(n, ToSet(excluded)));
    TargetsAreTheObservations(n);
    NoDupCounts(all);
    RestIsCounted(ToSet(all), ToSet(kept), ToSet(excluded));
  }

  lemma KeptMembers(all: seq<string>, excluded: seq<string>)
    ensures var kept := Keep(excluded, id => id in ToSet(all));
            && ToSet(kept) == ToSet(excluded) * ToSet(all)
            && forall id :: id in all ==> (id in ToSet(kept) <==> id in ToSet(excluded))
  {
    KeepMembers(excluded, id => id in ToSet(all));
    SetMembers(all);
    SetMembers(excluded);
    SetMembers(Keep(excluded, id => id in ToSet(all)));
  }

  lemma RestIsCounted(all: set<string>, kept: set<string>, excluded: set<string>)
    requires kept == excluded * all
    ensures |all| - |kept| == |all - excluded|
  {
    assert all == (all - excluded) + kept;
  }

  /** Normalizing shows no observation that is not stored. */
  lemma NormalizedTargetsAreStored(rules: Rules, doc: Document)
    ensures forall id :: id in AllTargets(NormalizedDocument(rules, doc)) ==> id in AllTargets(doc)
  {
    var n := NormalizedDocument(rules, doc);
    TargetsAreTheObservations(doc);
    TargetsAreTheObservations(n);
    forall id | Observed(n, id) ensures Observed(doc, id) {
      var p :| Has(n, p) && IsObservation(p) && IdAt(n, p) == id;
      var q := StoredAt(rules, doc, p);
      assert Has(doc, q) && IsObservation(q) && IdAt(doc, q) == id;
    }
  }

  lemma TargetsWithoutRepetition(known: set<string>, sections: seq<Section>)
    requires NoDup(Targets(sections))
    ensures NoRepeats(known, sections, |sections|)
  {
    forall k | 0 <= k < |sections| ensures !RepeatsInside(known, sections, k) {
      SectionWithoutRepetition(sections, k);
    }
  }

  lemma {:induction false} SectionWithoutRepetition(sections: seq<Section>, k: nat)
    requires NoDup(Targets(sections)) && k < |sections|
    ensures NoDup(sections[k].targets)
  {
    var front, last := sections[..|sections| - 1], sections[|sections| - 1];
    var all := Targets(sections);
    assert all == Targets(front) + last.targets;
    if k < |front| {
      assert forall i :: 0 <= i < |Targets(front)| ==> all[i] == Targets(front)[i];
      SectionWithoutRepetition(front, k);
    } else {
      assert forall i :: 0 <= i < |last.targets| ==> all[|Targets(front)| + i] == last.targets[i];
    }
  }

  /** Sections that cover more than a document shows are read as an exact cover of what it shows. */
  lemma CoversAreRead(n: Document, shown: Presentation)
    requires UniqueIds(n) && ValidPresentation(shown) && NoDup(Targets(shown.sections))
    requires forall id :: id in AllTargets(n) ==> id in Targets(shown.sections)
    ensures var read := CoercedPresentation(Stored(shown), n);
            && read.Some? && ExactCover(n, read.value.sections)
            && read.value.excluded == Keep(shown.excluded, id => id in ToSet(AllTargets(n)))
  {
    var known := ToSet(AllTargets(n));
    NothingIsLeft(n, shown.sections);
    ReadingFailsExactly(Stored(shown), n);
    TargetsWithoutRepetition(known, shown.sections);
    ReadingCoversExactly(Stored(shown), n);
  }

  lemma NothingIsLeft(n: Document, stored: seq<Section>)
    requires forall id :: id in AllTargets(n) ==> id in Targets(stored)
    ensures Ungrouped(n, KnownSections(stored, ToSet(AllTargets(n)))) == []
  {
    var known := ToSet(AllTargets(n));
    var read := KnownSections(stored, known);
    AllAreRead(known, stored);
    TargetsOfPrefix(stored, |stored|);
    assert stored[..|stored|] == stored;
    SetMembers(AllTargets(n));
    SetMembers(Targets(read));
    KeepNone(AllTargets(n), id => id !in ToSet(Targets(read)));
  }

  /** What the export handler reads of the effective data, and that it leaves out nothing but the exclusions. */
  lemma EffectiveDataIsExported(rules: Rules, stored: Document, doc: Document, shown: Presentation)
    requires Valid(doc) && UniqueIds(doc) && SameShape(stored, doc) && Covers(stored, shown)
    ensures var n := NormalizedDocument(rules, doc);
            var read := CoercedPresentation(Stored(shown), n);
            && Coerced(rules, ToJson(doc)) == Some(n) && read.Some?
            && HoldsTheRest(rules, ReviewedOf(n, read.value), doc, shown)
  {
    var n := NormalizedDocument(rules, doc);
    CoercedDump(rules, doc);
    UniqueIdsStay(rules, doc);
    ShownIsListed(rules, stored, doc, shown);
    CoversAreRead(n, shown);
    ReadHoldsTheRest(n, CoercedPresentation(Stored(shown), n).value, shown.excluded);
    SectionsAreExportedInOrder(n, CoercedPresentation(Stored(shown), n).value);
  }

  lemma ShownIsListed(rules: Rules, stored: Document, doc: Document, shown: Presentation)
    requires SameShape(stored, doc) && Covers(stored, shown)
    ensures forall id :: id in AllTargets(NormalizedDocument(rules, doc)) ==> id in Targets(shown.sections)
  {
    NormalizedTargetsAreStored(rules, doc);
    SameShapeSameObservations(stored, doc);
    SetMembers(Targets(shown.sections));
    SetMembers(AllTargets(stored));
    forall id | id in AllTargets(stored) ensures id in Targets(shown.sections) {
      assert id in ToSet(AllTargets(stored));
    }
  }

  lemma ReadHoldsTheRest(n: Document, read: Presentation, excluded: seq<string>)
    requires UniqueIds(n) && ExactCover(n, read.sections) && NoDup(excluded)
    requires read.excluded == Keep(excluded, id => id in ToSet(AllTargets(n)))
    ensures var items := AllItems(ReviewedOf(n, read).sections);
            && OneForEach(n, ToSet(excluded), items)
            && |items| == |ToSet(AllTargets(n)) - ToSet(excluded)|
  {
    KeepMembers(excluded, id => id in ToSet(AllTargets(n)));
    SetMembers(AllTargets(n));
    CoveredExport(n, read);
    OnlyShownExclusionsCount(n, excluded);
    ItemsAreOneForEach(n, ToSet(excluded), AllItems(ReviewedOf(n, read).sections));
  }

  lemma ItemsAreOneForEach(n: Document, excluded: set<string>, items: seq<Item>)
    requires UniqueIds(n) && multiset(items) == multiset(ItemsFor(n, excluded, AllTargets(n)))
    ensures OneForEach(n, excluded, items)
  {
    var ids := SlotIds(n, |n.fields| + |n.tables| + |n.blocks|);
    TargetsAreTheSlots(n);
    GatherPermuted(AllTargets(n), ids, ItemPick(n, excluded));
    SlotsAreOneForEach(n, excluded);
    SameBagOneForEach(n, excluded, ItemsFor(n, excluded, ids), items);
  }

  lemma SameBagOneForEach(n: Document, excluded: set<string>, a: seq<Item>, b: seq<Item>)
    requires OneForEach(n, excluded, a) && multiset(a) == multiset(b)
    ensures OneForEach(n, excluded, b)
  {
  }

  lemma ExportAnswers(reading: Reading, row: Record, doc: Document, read: Presentation, expected: nat)
    requires Replayable(row.canonical, row.log) && reading.coerce(Replay(row.canonical, row.log)) == Some(doc)
    requires reading.present(row.presentation, doc) == Some(read)
    ensures Exported(reading, row, expected) ==
              if row.version != expected || !row.status.Approved? then Err(Conflict)
              else Ok(Export(row.version, reading.exported(doc, read), row.issues))
  {
  }

  /**
   A reviewable result is exported exactly when its version is named and it is approved, and the export holds
   exactly the items of the effective document that are not excluded.
   */
  lemma ExportHoldsTheRest(
    rules: Rules, row: Record, stored: Document, doc: Document, shown: Presentation, expected: nat)
    requires Reviewable(rules, row, stored, doc, shown)
    ensures var answer := Exported(StandardReading(rules), row, expected);
            && (answer.Ok? <==> row.version == expected && row.status.Approved?)
            && (answer.Ok? ==> HoldsTheRest(rules, answer.value.document, doc, shown))
  {
    var n := NormalizedDocument(rules, doc);
    EffectiveDataIsExported(rules, stored, doc, shown);
    ExportAnswers(StandardReading(rules), row, n, CoercedPresentation(Stored(shown), n).value, expected);
  }

  // ---------- from a draft, through any review, to an export ----------

  /** The row that completing a run inserts. */
  function Inserted(
      rules: Rules, draft: Draft, doc: Document, review: seq<Candidate>, drafted: Option<seq<DraftSection>>)
    : Record
  {
    var (stored, shown, issues) := StoredResult(rules, draft, doc, review, drafted);
    Record(ToJson(stored), [], Stored(shown), issues, Unreviewed, None, 1)
  }

  lemma InsertedIsReviewable(
    rules: Rules, draft: Draft, documentType: string, pages: seq<Extraction.PageSize>, doc: Document,
    review: seq<Candidate>, drafted: Option<seq<DraftSection>>)
    requires DraftAccepted(draft) && Sized(documentType, 1, 100) && Extraction.Finishes(draft, documentType, pages, doc)
    requires drafted.Some? ==> SectionsAccepted(drafted.value)
    ensures var (stored, shown, _) := StoredResult(rules, draft, doc, review, drafted);
            Reviewable(rules, Inserted(rules, draft, doc, review, drafted), stored, stored, shown)
  {
    StoredResultIsSound(rules, draft, documentType, pages, doc, review, drafted);
    var (stored, shown, issues) := StoredResult(rules, draft, doc, review, drafted);
    SoundIsReviewable(rules, stored, shown, issues);
  }

  lemma SoundIsReviewable(rules: Rules, stored: Document, shown: Presentation, issues: seq<Issue>)
    requires Sound(rules, stored) && Covers(stored, shown)
    ensures var row := Record(ToJson(stored), [], Stored(shown), issues, Unreviewed, None, 1);
            Reviewable(rules, row, stored, stored, shown)
  {
  }

  /**
   For every accepted draft, whatever a model reviews and groups, and along every history of corrections, selections
   and verdicts: the effective data stays a valid document with the ids of the stored one; an export succeeds exactly
   when the row is approved at the named version; and it holds exactly one item for every observation the effective
   document shows that is not excluded at that time.
   */
  lemma EveryExportHoldsTheRest(
    rules: Rules, draft: Draft, documentType: string, pages: seq<Extraction.PageSize>, doc: Document,
    review: seq<Candidate>, drafted: Option<seq<DraftSection>>, requests: seq<Request>, expected: nat)
    returns (effective: Document, shown: Presentation)
    requires DraftAccepted(draft) && Sized(documentType, 1, 100) && Extraction.Finishes(draft, documentType, pages, doc)
    requires drafted.Some? ==> SectionsAccepted(drafted.value)
    ensures var row := At(StandardReading(rules), Inserted(rules, draft, doc, review, drafted), requests, |requests|);
            var answer := Exported(StandardReading(rules), row, expected);
            && Shows(row, effective) && Valid(effective) && UniqueIds(effective)
            && SameShape(StoredResult(rules, draft, doc, review, drafted).0, effective)
            && row.presentation == Stored(shown)
            && (answer.Ok? <==> row.version == expected && row.status.Approved?)
            && (answer.Ok? ==> HoldsTheRest(rules, answer.value.document, effective, shown))
  {
    InsertedIsReviewable(rules, draft, documentType, pages, doc, review, drafted);
    var (stored, first, _) := StoredResult(rules, draft, doc, review, drafted);
    var row := Inserted(rules, draft, doc, review, drafted);
    ReviewableAlways(rules, stored, row, requests, |requests|);
    var last := At(StandardReading(rules), row, requests, |requests|);
    effective, shown :| Reviewable(rules, last, stored, effective, shown);
    ExportHoldsTheRest(rules, last, stored, effective, shown, expected);
  }

  // ---------- selection, approval, export ----------

  /** The selection names only observations, and spares one if there is any. */
  predicate Selectable(doc: Document, excluded: seq<string>) {
    var all := ToSet(AllTargets(doc));
    ToSet(excluded) <= all && (all != {} ==> ToSet(excluded) != all)
  }

  /** A selection of a reviewable result is accepted exactly when it names only observations and spares one. */
  lemma SelectionAcceptedExactly(
    rules: Rules, row: Record, stored: Document, doc: Document, shown: Presentation, excluded: seq<string>)
    requires Reviewable(rules, row, stored, doc, shown) && !row.status.Approved?
    ensures Selected(StandardReading(rules), row, row.version, excluded).1 == Done <==> Selectable(stored, excluded)
  {
    SelectionOutcome(rules, row, stored, doc, shown, row.version, excluded);
    RenumberedTargets(shown.sections);
  }

  /** What an accepted selection leaves stored: the same sections, and exactly the requested exclusions. */
  lemma AcceptedSelection(
    rules: Rules, row: Record, stored: Document, doc: Document, shown: Presentation, excluded: seq<string>)
    returns (next: Presentation)
    requires Reviewable(rules, row, stored, doc, shown) && !row.status.Approved? && Selectable(stored, excluded)
    ensures Reviewable(rules, Selected(StandardReading(rules), row, row.version, excluded).0, stored, doc, next)
    ensures ToSet(next.excluded) == ToSet(excluded)
  {
    next := shown;
    SelectionOutcome(rules, row, stored, doc, shown, row.version, excluded);
    SelectableIsEffected(stored, shown, excluded);
    var effect := SelectionEffect(Presentation(Renumbered(shown.sections), shown.excluded), excluded);
    if effect.value.Some? {
      next := effect.value.value;
      SelectionCovers(stored, shown, excluded, next);
    }
  }

  lemma SelectableIsEffected(doc: Document, shown: Presentation, excluded: seq<string>)
    requires Covers(doc, shown) && Selectable(doc, excluded)
    ensures var effect := SelectionEffect(Presentation(Renumbered(shown.sections), shown.excluded), excluded);
            && effect.Ok?
            && ToSet(if effect.value.Some? then effect.value.value.excluded else shown.excluded) == ToSet(excluded)
  {
    RenumberedTargets(shown.sections);
    SelectionIsExact(Presentation(Renumbered(shown.sections), shown.excluded), excluded);
  }

  /**
   Selecting what to leave out, approving, and exporting: the export holds exactly the items of the observations
   outside the selection.
   */
  lemma SelectedAreLeftOut(
    rules: Rules, row: Record, stored: Document, doc: Document, shown: Presentation, excluded: seq<string>,
    user: UserId)
    requires Reviewable(rules, row, stored, doc, shown) && !row.status.Approved? && Selectable(stored, excluded)
    ensures var reading := StandardReading(rules);
            var (selected, outcome) := Selected(reading, row, row.version, excluded);
            var approved := Judged(selected, selected.version, Approved, user).0;
            var answer := Exported(reading, approved, approved.version);
            && outcome == Done && answer.Ok?
            && OneForEach(NormalizedDocument(rules, doc), ToSet(excluded), AllItems(answer.value.document.sections))
  {
    var reading := StandardReading(rules);
    SelectionAcceptedExactly(rules, row, stored, doc, shown, excluded);
    var next := AcceptedSelection(rules, row, stored, doc, shown, excluded);
    var selected := Selected(reading, row, row.version, excluded).0;
    var approved := Judged(selected, selected.version, Approved, user).0;
    SelectionNeverApproves(reading, row, row.version, excluded);
    ExportHoldsTheRest(rules, approved, stored, doc, next, approved.version);
  }

  lemma SelectionNeverApproves(reading: Reading, row: Record, expected: nat, excluded: seq<string>)
    requires !row.status.Approved?
    ensures !Selected(reading, row, expected, excluded).0.status.Approved?
  {
  }
}
