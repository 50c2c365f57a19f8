/** Reading a stored presentation back: what it always yields, when it changes nothing, when it is an exact cover. */
module PresentationStorage {
  import opened Wrappers
  import opened ExtractionSchema
  import opened Sequences
  import opened Presentation
  import opened PresentationTheorems

  // ---------- targets of a prefix ----------

  predicate Earlier(sections: seq<Section>, k: nat, id: string)
    requires k <= |sections|
  {
    exists j :: 0 <= j < k && id in sections[j].targets
  }

  lemma {:induction false} TargetsOfPrefix(sections: seq<Section>, k: nat)
    requires k <= |sections|
    ensures forall id :: id in Targets(sections[..k]) <==> Earlier(sections, k, id)
  {
    if k > 0 {
      TargetsOfPrefix(sections, k - 1);
      assert sections[..k] == sections[..k - 1] + [sections[k - 1]];
      TargetsGrow(sections[..k - 1], sections[k - 1]);
      forall id ensures id in Targets(sections[..k]) <==> Earlier(sections, k, id) {
        assert Earlier(sections, k, id) <==> Earlier(sections, k - 1, id) || id in sections[k - 1].targets;
      }
    }
  }

  // ---------- what reading back changes ----------

  /** No section is empty, lists an unknown target, or shares one with an earlier section. */
  predicate Sectioned(known: set<string>, sections: seq<Section>) {
    forall k :: 0 <= k < |sections| ==> ProperSection(known, sections, k)
  }

  predicate ProperSection(known: set<string>, sections: seq<Section>, k: nat)
    requires k < |sections|
  {
    && sections[k].targets != []
    && forall id :: id in sections[k].targets ==> id in known && !Earlier(sections, k, id)
  }

  predicate Complete(known: set<string>, sections: seq<Section>) {
    forall id :: id in known ==> Earlier(sections, |sections|, id)
  }

  predicate Numbered(sections: seq<Section>) {
    forall k :: 0 <= k < |sections| ==> sections[k].number == k + 1
  }

  /** Exactly the presentations that reading back leaves as they are. */
  predicate Settled(doc: Document, p: Presentation) {
    var known := ToSet(AllTargets(doc));
    && Sectioned(known, p.sections) && Complete(known, p.sections) && Numbered(p.sections)
    && forall id :: id in p.excluded ==> id in known
  }

  function Renumbered(sections: seq<Section>): seq<Section> {
    seq(|sections|, k requires 0 <= k < |sections| => sections[k].(number := k + 1))
  }

  lemma RenumberingKeepsTargets(sections: seq<Section>, k: nat)
    requires k <= |sections|
    ensures forall id :: Earlier(Renumbered(sections), k, id) <==> Earlier(sections, k, id)
  {
    forall id ensures Earlier(Renumbered(sections), k, id) <==> Earlier(sections, k, id) {
      if Earlier(sections, k, id) {
        var j :| 0 <= j < k && id in sections[j].targets;
        assert id in Renumbered(sections)[j].targets;
      }
      if Earlier(Renumbered(sections), k, id) {
        var j :| 0 <= j < k && id in Renumbered(sections)[j].targets;
        assert id in sections[j].targets;
      }
    }
  }

  lemma NothingUnknown(known: set<string>, sections: seq<Section>, i: nat)
    requires i < |sections| && ProperSection(known, sections, i)
    ensures forall id :: id in sections[i].targets ==> id in known && id !in ToSet(Targets(Renumbered(sections)[..i]))
  {
    TargetsOfPrefix(Renumbered(sections), i);
    RenumberingKeepsTargets(sections, i);
    SetMembers(Targets(Renumbered(sections)[..i]));
  }

  lemma AllKnownAreKept(known: set<string>, before: seq<Section>, section: Section)
    requires section.targets != []
    requires forall id :: id in section.targets ==> id in known && id !in ToSet(Targets(before))
    ensures WithKnown(known, before, section) == before + [Section(|before| + 1, section.title, section.targets)]
  {
    KeepAll(section.targets, id => id in known && id !in ToSet(Targets(before)));
  }

  lemma RenumberedStep(sections: seq<Section>, i: nat)
    requires i < |sections|
    ensures Renumbered(sections)[..i + 1]
            == Renumbered(sections)[..i] + [Section(i + 1, sections[i].title, sections[i].targets)]
  {
    assert Renumbered(sections)[i] == Section(i + 1, sections[i].title, sections[i].targets);
  }

  lemma KnownOne(known: set<string>, sections: seq<Section>, i: nat)
    requires i < |sections| && ProperSection(known, sections, i)
    ensures WithKnown(known, Renumbered(sections)[..i], sections[i]) == Renumbered(sections)[..i + 1]
  {
    NothingUnknown(known, sections, i);
    AllKnownAreKept(known, Renumbered(sections)[..i], sections[i]);
    RenumberedStep(sections, i);
  }

  lemma SectionedAreKept(known: set<string>, sections: seq<Section>)
    requires Sectioned(known, sections)
    ensures KnownSections(sections, known) == Renumbered(sections)
  {
    var inv := (i: nat, read: seq<Section>) => i <= |sections| && read == Renumbered(sections)[..i];
    forall read, i | 0 <= i < |sections| && inv(i, read) ensures inv(i + 1, Knowing(known)(read, sections[i])) {
      assert ProperSection(known, sections, i);
      KnownOne(known, sections, i);
    }
    assert Renumbered(sections)[..0] == [];
    FoldKeeps(sections, |sections|, [], Knowing(known), inv);
  }

  /** Reading back changes nothing but the numbers of well-formed, complete sections. */
  lemma ReadingRenumbers(doc: Document, p: Presentation)
    requires ValidPresentation(p)
    requires Sectioned(ToSet(AllTargets(doc)), p.sections) && Complete(ToSet(AllTargets(doc)), p.sections)
    ensures CoercedPresentation(Stored(p), doc)
            == Some(Presentation(Renumbered(p.sections), Keep(p.excluded, id => id in ToSet(AllTargets(doc)))))
  {
    var known, sections := ToSet(AllTargets(doc)), Renumbered(p.sections);
    SectionedAreKept(known, p.sections);
    TargetsOfPrefix(sections, |sections|);
    assert sections[..|sections|] == sections;
    RenumberingKeepsTargets(p.sections, |sections|);
    SetMembers(Targets(sections));
    SetMembers(AllTargets(doc));
    KeepNone(AllTargets(doc), id => id !in ToSet(Targets(sections)));
  }

  lemma CoversAreSectioned(doc: Document, sections: seq<Section>)
    requires ExactCover(doc, sections)
    ensures Sectioned(ToSet(AllTargets(doc)), sections) && Complete(ToSet(AllTargets(doc)), sections)
  {
    TargetsOfPrefix(sections, |sections|);
    assert sections[..|sections|] == sections;
    SetMembers(Targets(sections));
    forall k | 0 <= k < |sections| ensures ProperSection(ToSet(AllTargets(doc)), sections, k) {
      TargetsOfPrefix(sections, k);
      PrefixesSplit(sections, k);
      forall id | id in sections[k].targets ensures id in ToSet(AllTargets(doc)) && !Earlier(sections, k, id) {
        assert Earlier(sections, |sections|, id);
      }
    }
  }

  /** The targets before a section and those of the section are apart when the whole has no repetition. */
  lemma {:induction false} PrefixesSplit(sections: seq<Section>, k: nat)
    requires k < |sections| && NoDup(Targets(sections))
    ensures NoDup(Targets(sections[..k]))
    ensures forall id :: id in sections[k].targets ==> id !in Targets(sections[..k])
  {
    var front, last := sections[..|sections| - 1], sections[|sections| - 1];
    assert sections == front + [last];
    TargetsGrow(front, last);
    var all := Targets(sections);
    assert all == Targets(front) + last.targets;
    assert NoDup(Targets(front)) by {
      assert forall i :: 0 <= i < |Targets(front)| ==> all[i] == Targets(front)[i];
    }
    if k < |front| {
      PrefixesSplit(front, k);
      assert front[..k] == sections[..k] && front[k] == sections[k];
    } else {
      forall id | id in last.targets ensures id !in Targets(front) {
        var j :| 0 <= j < |last.targets| && last.targets[j] == id;
        assert all[|Targets(front)| + j] == id;
        forall i | 0 <= i < |Targets(front)| ensures Targets(front)[i] != id {
          assert all[i] == Targets(front)[i];
        }
      }
    }
  }

  /** Storing an exact cover and reading it back changes nothing but the section numbers. */
  lemma StoredCoversAreReadBack(doc: Document, p: Presentation)
    requires ValidPresentation(p) && ExactCover(doc, p.sections) && forall id :: id in p.excluded ==> id in AllTargets(doc)
    ensures CoercedPresentation(Stored(p), doc) == Some(Presentation(Renumbered(p.sections), p.excluded))
  {
    CoversAreSectioned(doc, p.sections);
    ReadingRenumbers(doc, p);
    SetMembers(AllTargets(doc));
    KeepAll(p.excluded, id => id in ToSet(AllTargets(doc)));
  }

  // ---------- what reading back always yields ----------

  lemma KnownStep(known: set<string>, read: seq<Section>, section: Section)
    requires Sectioned(known, read) && Numbered(read)
    ensures Sectioned(known, WithKnown(known, read, section)) && Numbered(WithKnown(known, read, section))
  {
    var targets := Keep(section.targets, id => id in known && id !in ToSet(Targets(read)));
    if targets != [] {
      TargetsOfPrefix(read, |read|);
      assert read[..|read|] == read;
      SetMembers(Targets(read));
      KeepMembers(section.targets, id => id in known && id !in ToSet(Targets(read)));
      OneMoreProper(known, read, Section(|read| + 1, section.title, targets));
    }
  }

  lemma OneMoreProper(known: set<string>, read: seq<Section>, added: Section)
    requires Sectioned(known, read) && added.targets != []
    requires forall id :: id in added.targets ==> id in known && !Earlier(read, |read|, id)
    ensures Sectioned(known, read + [added])
  {
    var longer := read + [added];
    forall k | 0 <= k < |longer| ensures ProperSection(known, longer, k) {
      if k < |read| {
        assert ProperSection(known, read, k) && longer[k] == read[k];
      }
      forall id | id in longer[k].targets ensures id in known && !Earlier(longer, k, id) {
        if k < |read| {
          assert !Earlier(read, k, id);
        }
      }
    }
  }

  lemma RestSettles(doc: Document, sections: seq<Section>)
    requires Sectioned(ToSet(AllTargets(doc)), sections) && Numbered(sections)
    ensures var all := WithRest(sections, Ungrouped(doc, sections));
            Sectioned(ToSet(AllTargets(doc)), all) && Numbered(all) && Complete(ToSet(AllTargets(doc)), all)
  {
    var known, rest := ToSet(AllTargets(doc)), Ungrouped(doc, sections);
    TargetsOfPrefix(sections, |sections|);
    assert sections[..|sections|] == sections;
    SetMembers(Targets(sections));
    SetMembers(AllTargets(doc));
    KeepMembers(AllTargets(doc), id => id !in ToSet(Targets(sections)));
    var all := WithRest(sections, rest);
    if rest != [] {
      OneMoreProper(known, sections, all[|sections|]);
    }
    forall id | id in known ensures Earlier(all, |all|, id) {
      if Earlier(sections, |sections|, id) {
        var j :| 0 <= j < |sections| && id in sections[j].targets;
        assert id in all[j].targets;
      } else {
        assert id in all[|sections|].targets;
      }
    }
  }

  lemma KnownSectionsSettle(known: set<string>, stored: seq<Section>)
    ensures Sectioned(known, KnownSections(stored, known)) && Numbered(KnownSections(stored, known))
  {
    var inv := (_: nat, sections: seq<Section>) => Sectioned(known, sections) && Numbered(sections);
    forall sections, i | 0 <= i < |stored| && inv(i, sections)
      ensures inv(i + 1, Knowing(known)(sections, stored[i]))
    {
      KnownStep(known, sections, stored[i]);
    }
    FoldKeeps(stored, |stored|, [], Knowing(known), inv);
  }

  /** Whatever is stored, what is read is settled. */
  lemma ReadingSettles(stored: StoredPresentation, doc: Document)
    requires CoercedPresentation(stored, doc).Some?
    ensures Settled(doc, CoercedPresentation(stored, doc).value)
  {
    var known := ToSet(AllTargets(doc));
    if stored.Absent? {
      RestSettles(doc, []);
    } else {
      var read := Readable(stored);
      KnownSectionsSettle(known, read.sections);
      RestSettles(doc, KnownSections(read.sections, known));
      KeepMembers(read.excluded, id => id in known);
    }
  }

  // ---------- what is read is within the schema's bounds ----------

  /** The list bounds of the extraction schema. */
  predicate Bounded(doc: Document) {
    |doc.fields| <= 2000 && |doc.tables| <= 100 && |doc.blocks| <= 500
  }

  predicate ValidSections(sections: seq<Section>, n: nat) {
    |sections| <= n && forall k :: 0 <= k < |sections| ==> ValidSection(sections[k])
  }

  lemma {:induction false} KeepIsNoLonger<T>(s: seq<T>, p: T -> bool)
    ensures |Keep(s, p)| <= |s|
  {
    if s != [] {
      KeepIsNoLonger(s[..|s| - 1], p);
    }
  }

  lemma KnownSectionsStayValid(known: set<string>, stored: seq<Section>)
    requires ValidSections(stored, 101)
    ensures ValidSections(KnownSections(stored, known), |stored|)
  {
    var inv := (i: nat, sections: seq<Section>) => i <= |stored| && ValidSections(sections, i);
    forall sections, i | 0 <= i < |stored| && inv(i, sections)
      ensures inv(i + 1, Knowing(known)(sections, stored[i]))
    {
      KeepIsNoLonger(stored[i].targets, id => id in known && id !in ToSet(Targets(sections)));
    }
    FoldKeeps(stored, |stored|, [], Knowing(known), inv);
  }

  lemma RestStaysValid(doc: Document, sections: seq<Section>)
    requires Bounded(doc) && ValidSections(sections, 101)
    ensures ValidSections(WithRest(sections, Ungrouped(doc, sections)), |sections| + 1)
  {
    TargetsAreTheObservations(doc);
    KeepIsNoLonger(AllTargets(doc), id => id !in ToSet(Targets(sections)));
  }

  /** What is read of a document within bounds is valid. */
  lemma ReadingStaysValid(stored: StoredPresentation, doc: Document)
    requires Bounded(doc) && CoercedPresentation(stored, doc).Some?
    ensures ValidPresentation(CoercedPresentation(stored, doc).value)
  {
    var known := ToSet(AllTargets(doc));
    if stored.Absent? {
      RestStaysValid(doc, []);
    } else {
      var read := Readable(stored);
      KnownSectionsStayValid(known, read.sections);
      RestStaysValid(doc, KnownSections(read.sections, known));
      KeepMembers(read.excluded, id => id in known);
      KeepIsNoLonger(read.excluded, id => id in known);
    }
  }

  lemma {:induction false} PickedIsNoLonger(
    resolve: string -> Option<string>, paths: seq<string>, n: nat, taken: set<string>)
    requires n <= |paths|
    ensures |Picked(resolve, paths, n, taken)| <= n
  {
    if n > 0 {
      PickedIsNoLonger(resolve, paths, n - 1, taken);
    }
  }

  lemma TitleFits(title: string)
    requires |title| <= 200
    ensures 1 <= |SectionTitle(title)| <= 200
  {
  }

  lemma GroupsFit(resolve: string -> Option<string>, drafted: seq<DraftSection>)
    requires SectionsAccepted(drafted)
    ensures ValidSections(Grouped(resolve, drafted), |drafted|)
  {
    var inv := (i: nat, sections: seq<Section>) => i <= |drafted| && ValidSections(sections, i);
    forall sections, i | 0 <= i < |drafted| && inv(i, sections)
      ensures inv(i + 1, Grouping(resolve)(sections, drafted[i]))
    {
      PickedIsNoLonger(resolve, drafted[i].paths, |drafted[i].paths|, ToSet(Targets(sections)));
      TitleFits(drafted[i].title);
    }
    FoldKeeps(drafted, |drafted|, [], Grouping(resolve), inv);
  }

  /** A finished presentation is valid, whatever was drafted within the schema's bounds. */
  lemma FinishedPresentationsAreValid(doc: Document, drafted: Option<seq<DraftSection>>)
    requires Bounded(doc) && (drafted.Some? ==> SectionsAccepted(drafted.value))
    ensures ValidPresentation(FinalPresentation(doc, drafted))
  {
    if drafted.Some? {
      var resolve := Resolver(doc);
      GroupsFit(resolve, drafted.value);
      RestStaysValid(doc, Grouped(resolve, drafted.value));
    } else {
      RestStaysValid(doc, []);
    }
  }

  /** Removing ids keeps a presentation valid. */
  lemma RemovalKeepsValid(p: Presentation, removed: set<string>)
    requires ValidPresentation(p)
    ensures ValidPresentation(WithoutIds(p, removed))
  {
    var inv := (i: nat, sections: seq<Section>) => i <= |p.sections| && ValidSections(sections, i);
    forall sections, i | 0 <= i < |p.sections| && inv(i, sections)
      ensures inv(i + 1, Cleaning(removed)(sections, p.sections[i]))
    {
      KeepIsNoLonger(p.sections[i].targets, id => id !in removed);
    }
    FoldKeeps(p.sections, |p.sections|, [], Cleaning(removed), inv);
    KeepMembers(p.excluded, id => id !in removed);
    KeepIsNoLonger(p.excluded, id => id !in removed);
  }

  /** The stored presentations that reading back leaves as they are, exactly. */
  lemma SettledAreFixed(doc: Document, p: Presentation)
    requires Bounded(doc)
    ensures CoercedPresentation(Stored(p), doc) == Some(p) <==> Settled(doc, p) && ValidPresentation(p)
  {
    if CoercedPresentation(Stored(p), doc) == Some(p) {
      ReadingSettles(Stored(p), doc);
      ReadingStaysValid(Stored(p), doc);
    }
    if Settled(doc, p) && ValidPresentation(p) {
      SettledIsKept(doc, p);
    }
  }

  lemma SettledIsKept(doc: Document, p: Presentation)
    requires Settled(doc, p) && ValidPresentation(p)
    ensures CoercedPresentation(Stored(p), doc) == Some(p)
  {
    ReadingRenumbers(doc, p);
    NothingIsRenumbered(ToSet(AllTargets(doc)), p);
  }

  lemma NothingIsRenumbered(known: set<string>, p: Presentation)
    requires Numbered(p.sections) && forall id :: id in p.excluded ==> id in known
    ensures Presentation(Renumbered(p.sections), Keep(p.excluded, id => id in known)) == p
  {
    assert Renumbered(p.sections) == p.sections;
    KeepAll(p.excluded, id => id in known);
  }

  /** What can be read is read again as the same. */
  lemma ReadingIsIdempotent(stored: StoredPresentation, doc: Document)
    requires Bounded(doc)
    ensures var read := CoercedPresentation(stored, doc);
            read.Some? ==> CoercedPresentation(Stored(read.value), doc) == read
  {
    if CoercedPresentation(stored, doc).Some? {
      ReadingSettles(stored, doc);
      ReadingStaysValid(stored, doc);
      SettledAreFixed(doc, CoercedPresentation(stored, doc).value);
    }
  }

  /** Reading fails exactly on a valid presentation whose 101 sections all count but leave something out. */
  lemma ReadingFailsExactly(stored: StoredPresentation, doc: Document)
    ensures CoercedPresentation(stored, doc).None? <==>
              && stored.Stored? && ValidPresentation(stored.presentation)
              && var sections := KnownSections(stored.presentation.sections, ToSet(AllTargets(doc)));
                 |sections| == 101 && Ungrouped(doc, sections) != []
  {
    if stored.Stored? && ValidPresentation(stored.presentation) {
      KnownSectionsStayValid(ToSet(AllTargets(doc)), stored.presentation.sections);
    }
  }

  /** 101 sections of one observation each. */
  function FullSections(doc: Document): seq<Section>
    requires |AllTargets(doc)| > 101
  {
    seq(101, k requires 0 <= k < 101 => Section(k + 1, "Details", [AllTargets(doc)[k]]))
  }

  lemma FullSectionsAreSectioned(doc: Document)
    requires |AllTargets(doc)| > 101 && NoDup(AllTargets(doc))
    ensures Sectioned(ToSet(AllTargets(doc)), FullSections(doc))
    ensures !Earlier(FullSections(doc), 101, AllTargets(doc)[101])
  {
    SetMembers(AllTargets(doc));
    var sections := FullSections(doc);
    forall k | 0 <= k < 101 ensures ProperSection(ToSet(AllTargets(doc)), sections, k) {
      assert AllTargets(doc)[k] in AllTargets(doc);
    }
  }

  /** Every document of more than 101 observations has a valid stored presentation whose reading fails. */
  lemma OneSectionTooMany(doc: Document)
    requires UniqueIds(doc) && |AllTargets(doc)| > 101
    ensures var stored := Presentation(FullSections(doc), []);
            ValidPresentation(stored) && CoercedPresentation(Stored(stored), doc).None?
  {
    var sections, known := FullSections(doc), ToSet(AllTargets(doc));
    TargetsAreTheObservations(doc);
    FullSectionsAreSectioned(doc);
    SectionedAreKept(known, sections);
    TargetsOfPrefix(Renumbered(sections), 101);
    RenumberingKeepsTargets(sections, 101);
    assert Renumbered(sections)[..101] == Renumbered(sections);
    SetMembers(Targets(Renumbered(sections)));
    KeepMembers(AllTargets(doc), id => id !in ToSet(Targets(Renumbered(sections))));
    assert AllTargets(doc)[101] in Ungrouped(doc, Renumbered(sections));
    ReadingFailsExactly(Stored(Presentation(sections, [])), doc);
  }

  // ---------- when the result is an exact cover ----------

  /** A section names twice an observation that it is the first section to name. */
  predicate RepeatsInside(known: set<string>, sections: seq<Section>, k: nat)
    requires k < |sections|
  {
    exists a, b :: 0 <= a < b < |sections[k].targets| && sections[k].targets[a] == sections[k].targets[b]
      && sections[k].targets[a] in known && !Earlier(sections, k, sections[k].targets[a])
  }

  /** None of the first i sections repeats inside itself what it names first. */
  predicate NoRepeats(known: set<string>, sections: seq<Section>, i: nat)
    requires i <= |sections|
  {
    forall k :: 0 <= k < i ==> !RepeatsInside(known, sections, k)
  }

  lemma NoRepeatsGrows(known: set<string>, sections: seq<Section>, i: nat)
    requires i < |sections|
    ensures NoRepeats(known, sections, i + 1) <==> NoRepeats(known, sections, i) && !RepeatsInside(known, sections, i)
  {
  }

  /** What has been read so far lists exactly the known targets of the stored sections so far. */
  ghost predicate ReadsPrefix(known: set<string>, stored: seq<Section>, i: nat, read: seq<Section>)
    requires i <= |stored|
  {
    && (forall id :: id in Targets(read) <==> id in known && Earlier(stored, i, id))
    && NoEmptySection(read)
    && (NoDup(Targets(read)) <==> NoRepeats(known, stored, i))
  }

  /** What the next section contributes repeats nothing exactly when the section does not repeat inside itself. */
  lemma Contribution(known: set<string>, stored: seq<Section>, i: nat, read: seq<Section>)
    requires i < |stored|
    requires forall id :: id in Targets(read) <==> id in known && Earlier(stored, i, id)
    ensures var targets := Keep(stored[i].targets, id => id in known && id !in ToSet(Targets(read)));
            && (NoDup(targets) <==> !RepeatsInside(known, stored, i))
            && (forall id :: id in targets <==> id in stored[i].targets && id in known && !Earlier(stored, i, id))
            && (forall id :: id in targets ==> id !in ToSet(Targets(read)))
  {
    SetMembers(Targets(read));
    KeepMembers(stored[i].targets, id => id in known && id !in ToSet(Targets(read)));
    KeepRepeats(stored[i].targets, id => id in known && id !in ToSet(Targets(read)));
  }

  lemma TargetsAfter(known: set<string>, read: seq<Section>, section: Section)
    ensures Targets(WithKnown(known, read, section))
            == Targets(read) + Keep(section.targets, id => id in known && id !in ToSet(Targets(read)))
  {
    var targets := Keep(section.targets, id => id in known && id !in ToSet(Targets(read)));
    if targets != [] {
      TargetsGrow(read, Section(|read| + 1, section.title, targets));
    }
  }

  lemma EarlierGrows(stored: seq<Section>, i: nat)
    requires i < |stored|
    ensures forall id :: Earlier(stored, i + 1, id) <==> Earlier(stored, i, id) || id in stored[i].targets
  {
    forall id ensures Earlier(stored, i + 1, id) <==> Earlier(stored, i, id) || id in stored[i].targets {
      if Earlier(stored, i + 1, id) {
        var j :| 0 <= j < i + 1 && id in stored[j].targets;
        assert j < i ==> Earlier(stored, i, id);
      }
    }
  }

  lemma ReadOne(known: set<string>, stored: seq<Section>, i: nat, read: seq<Section>)
    requires i < |stored| && ReadsPrefix(known, stored, i, read)
    ensures ReadsPrefix(known, stored, i + 1, WithKnown(known, read, stored[i]))
  {
    var targets := Keep(stored[i].targets, id => id in known && id !in ToSet(Targets(read)));
    Contribution(known, stored, i, read);
    TargetsAfter(known, read, stored[i]);
    NoDupOfParts(Targets(read), targets);
    NoRepeatsGrows(known, stored, i);
    ReadMembers(known, stored, i, Targets(read), targets);
  }

  lemma ReadMembers(known: set<string>, stored: seq<Section>, i: nat, before: seq<string>, targets: seq<string>)
    requires i < |stored| && forall id :: id in before <==> id in known && Earlier(stored, i, id)
    requires forall id :: id in targets <==> id in stored[i].targets && id in known && !Earlier(stored, i, id)
    ensures forall id :: id in before + targets <==> id in known && Earlier(stored, i + 1, id)
  {
    EarlierGrows(stored, i);
  }

  lemma NoDupOfParts(a: seq<string>, b: seq<string>)
    requires forall id :: id in b ==> id !in ToSet(a)
    ensures NoDup(a + b) <==> NoDup(a) && NoDup(b)
  {
    if NoDup(a) && NoDup(b) {
      JoinNoDup(a, b);
    }
    if NoDup(a + b) {
      assert forall i :: 0 <= i < |a| ==> (a + b)[i] == a[i];
      assert forall i :: 0 <= i < |b| ==> (a + b)[|a| + i] == b[i];
      forall i, j | 0 <= i < j < |b| ensures b[i] != b[j] {
        assert (a + b)[|a| + i] != (a + b)[|a| + j];
      }
    }
  }

  /** Reading back yields an exact cover exactly when no section it reads repeats inside itself what it names first. */
  lemma ReadingCoversExactly(stored: StoredPresentation, doc: Document)
    requires UniqueIds(doc) && CoercedPresentation(stored, doc).Some?
    ensures ExactCover(doc, CoercedPresentation(stored, doc).value.sections) <==>
              NoRepeats(ToSet(AllTargets(doc)), Readable(stored).sections, |Readable(stored).sections|)
  {
    if stored.Absent? {
      FinishedPresentationsCover(doc, None);
    } else {
      var known, sections := ToSet(AllTargets(doc)), Readable(stored).sections;
      AllAreRead(known, sections);
      RestCoversExactly(doc, KnownSections(sections, known));
    }
  }

  lemma AllAreRead(known: set<string>, stored: seq<Section>)
    ensures ReadsPrefix(known, stored, |stored|, KnownSections(stored, known))
  {
    var inv := (i: nat, read: seq<Section>) => i <= |stored| && ReadsPrefix(known, stored, i, read);
    forall read, i | 0 <= i < |stored| && inv(i, read) ensures inv(i + 1, Knowing(known)(read, stored[i])) {
      ReadOne(known, stored, i, read);
    }
    FoldKeeps(stored, |stored|, [], Knowing(known), inv);
  }

  /** A last section for the rest makes an exact cover exactly of sections that repeat nothing. */
  lemma RestCoversExactly(doc: Document, sections: seq<Section>)
    requires UniqueIds(doc) && NoEmptySection(sections)
    requires forall id :: id in Targets(sections) ==> id in ToSet(AllTargets(doc))
    ensures ExactCover(doc, WithRest(sections, Ungrouped(doc, sections))) <==> NoDup(Targets(sections))
  {
    if NoDup(Targets(sections)) {
      RestCompletes(doc, sections);
    } else {
      var rest := Ungrouped(doc, sections);
      if rest != [] {
        TargetsGrow(sections, WithRest(sections, rest)[|sections|]);
        KeepMembers(AllTargets(doc), id => id !in ToSet(Targets(sections)));
        NoDupOfParts(Targets(sections), rest);
      }
    }
  }

  // ---------- a section that repeats an observation ----------

  function TwoFields(x: string, y: string): Document {
    Document("invoice", [Field(x, "a", "b", 1, None), Field(y, "c", "d", 1, None)], [], [])
  }

  function Repeating(x: string, y: string): Presentation {
    Presentation([Section(1, "Details", [x, x, y])], [])
  }

  lemma TwoFieldTargets(x: string, y: string)
    requires x != y
    ensures UniqueIds(TwoFields(x, y)) && ToSet(AllTargets(TwoFields(x, y))) == {x, y}
  {
    var doc := TwoFields(x, y);
    TargetsAreTheObservations(doc);
    SetMembers(AllTargets(doc));
    assert Has(doc, FieldAt(0)) && IdAt(doc, FieldAt(0)) == x && Has(doc, FieldAt(1)) && IdAt(doc, FieldAt(1)) == y;
    assert Observed(doc, x) && Observed(doc, y);
  }

  lemma OneSectionTargets(section: Section)
    ensures Targets([section]) == section.targets
  {
    assert [section][..0] == [];
    assert Targets([]) + section.targets == section.targets;
  }

  /** A valid stored section that repeats an observation is read back as it is, and so is no exact cover. */
  lemma RepeatedObservationsStay(x: string, y: string)
    requires x != y
    ensures ValidPresentation(Repeating(x, y))
    ensures CoercedPresentation(Stored(Repeating(x, y)), TwoFields(x, y)) == Some(Repeating(x, y))
    ensures !ExactCover(TwoFields(x, y), Repeating(x, y).sections)
  {
    var p := Repeating(x, y);
    TwoFieldTargets(x, y);
    RepeatingIsSettled(p, {x, y});
    SettledIsKept(TwoFields(x, y), p);
    OneSectionTargets(p.sections[0]);
    RepeatsAtOnce(Targets(p.sections));
  }

  lemma RepeatsAtOnce(targets: seq<string>)
    requires |targets| >= 2 && targets[0] == targets[1]
    ensures !NoDup(targets)
  {
  }

  lemma RepeatingIsSettled(p: Presentation, known: set<string>)
    requires |p.sections| == 1 && p.sections[0].number == 1 && p.sections[0].targets != []
    requires forall id :: id in known <==> id in p.sections[0].targets
    ensures Sectioned(known, p.sections) && Complete(known, p.sections) && Numbered(p.sections)
  {
  }
}
