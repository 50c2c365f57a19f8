/** Sections list every observation exactly once, through grouping, removal of boilerplate and storage. */
module PresentationTheorems {
  import opened Wrappers
  import opened ExtractionSchema
  import opened TextRules
  import opened QualityDetectors
  import opened ExtractionTheorems
  import opened Sequences
  import opened Presentation

  /** Every observation in exactly one section, once, and no section without observations. */
  predicate ExactCover(doc: Document, sections: seq<Section>) {
    && NoDup(Targets(sections))
    && ToSet(Targets(sections)) == ToSet(AllTargets(doc))
    && NoEmptySection(sections)
  }

  predicate NoEmptySection(sections: seq<Section>) {
    forall k :: 0 <= k < |sections| ==> sections[k].targets != []
  }

  // ---------- grouping ----------

  lemma {:induction false} PickedAreNew(
      resolve: string -> Option<string>, paths: seq<string>, n: nat, taken: set<string>, known: set<string>)
    requires n <= |paths| && forall path :: resolve(path).Some? ==> resolve(path).value in known
    ensures NoDup(Picked(resolve, paths, n, taken))
    ensures forall id :: id in Picked(resolve, paths, n, taken) ==> id in known && id !in taken
  {
    if n > 0 {
      PickedAreNew(resolve, paths, n - 1, taken, known);
    }
  }

  lemma PathsNameObservations(doc: Document, path: string)
    ensures var id := PresentationTarget(doc, path); id.Some? ==> id.value in AllTargets(doc)
  {
    TargetsAreTheObservations(doc);
    var id := PresentationTarget(doc, path);
    if id.Some? {
      var i := Decimal.Parse(Corrections.Split(path)[2]);
      var p := if Corrections.Split(path)[1] == "fields" then FieldAt(i)
               else if Corrections.Split(path)[1] == "tables" then TableAt(i) else BlockAt(i);
      assert Has(doc, p) && IsObservation(p) && IdAt(doc, p) == id.value;
      assert Observed(doc, id.value);
    }
  }

  lemma JoinNoDup(a: seq<string>, b: seq<string>)
    requires NoDup(a) && NoDup(b) && forall id :: id in b ==> id !in ToSet(a)
    ensures NoDup(a + b)
  {
    SetMembers(a);
    forall i, j | 0 <= i < j < |a + b| ensures (a + b)[i] != (a + b)[j] {
      if i < |a| <= j {
        assert a[i] in a && b[j - |a|] in b;
      }
    }
  }

  /** Known observations, each in at most one section, and no section without observations. */
  predicate PartialCover(known: set<string>, sections: seq<Section>) {
    && NoDup(Targets(sections))
    && (forall id :: id in Targets(sections) ==> id in known)
    && NoEmptySection(sections)
  }

  lemma OneMoreSection(known: set<string>, sections: seq<Section>, section: Section)
    requires PartialCover(known, sections) && section.targets != [] && NoDup(section.targets)
    requires forall id :: id in section.targets ==> id in known && id !in ToSet(Targets(sections))
    ensures PartialCover(known, sections + [section])
  {
    TargetsGrow(sections, section);
    JoinNoDup(Targets(sections), section.targets);
  }

  lemma GroupIsNew(resolve: string -> Option<string>, before: seq<Section>, section: DraftSection, known: set<string>)
    requires forall path :: resolve(path).Some? ==> resolve(path).value in known
    requires PartialCover(known, before)
    ensures PartialCover(known, WithGroup(resolve, before, section))
  {
    var targets := Picked(resolve, section.paths, |section.paths|, ToSet(Targets(before)));
    PickedAreNew(resolve, section.paths, |section.paths|, ToSet(Targets(before)), known);
    if targets != [] {
      OneMoreSection(known, before, Section(|before| + 1, SectionTitle(section.title), targets));
    }
  }

  lemma GroupsAreDisjoint(resolve: string -> Option<string>, drafted: seq<DraftSection>, known: set<string>)
    requires forall path :: resolve(path).Some? ==> resolve(path).value in known
    ensures PartialCover(known, Grouped(resolve, drafted))
  {
    var partial := (_: nat, sections) => PartialCover(known, sections);
    forall before, i | 0 <= i < |drafted| && partial(i, before)
      ensures partial(i + 1, Grouping(resolve)(before, drafted[i]))
    {
      GroupIsNew(resolve, before, drafted[i], known);
    }
    FoldKeeps(drafted, |drafted|, [], Grouping(resolve), partial);
  }

  lemma RestIsNew(doc: Document, sections: seq<Section>)
    requires UniqueIds(doc)
    ensures var rest := Ungrouped(doc, sections);
            && NoDup(rest)
            && forall id :: id in rest <==> id in AllTargets(doc) && id !in ToSet(Targets(sections))
  {
    TargetsAreTheObservations(doc);
    KeepMembers(AllTargets(doc), id => id !in ToSet(Targets(sections)));
  }

  /** Adding the rest completes a cover. */
  lemma RestCompletes(doc: Document, sections: seq<Section>)
    requires UniqueIds(doc) && PartialCover(ToSet(AllTargets(doc)), sections)
    ensures ExactCover(doc, WithRest(sections, Ungrouped(doc, sections)))
  {
    var rest := Ungrouped(doc, sections);
    RestIsNew(doc, sections);
    if rest != [] {
      var last := WithRest(sections, rest)[|sections|];
      OneMoreSection(ToSet(AllTargets(doc)), sections, last);
      TargetsGrow(sections, last);
    }
    Complete(doc, sections, rest);
  }

  lemma Complete(doc: Document, sections: seq<Section>, rest: seq<string>)
    requires PartialCover(ToSet(AllTargets(doc)), sections)
    requires forall id :: id in rest <==> id in AllTargets(doc) && id !in ToSet(Targets(sections))
    ensures ToSet(Targets(sections)) + ToSet(rest) == ToSet(AllTargets(doc))
  {
    SetMembers(Targets(sections));
    SetMembers(rest);
    SetMembers(AllTargets(doc));
  }

  /** Whatever a model drafts, the finished presentation is an exact cover. */
  lemma FinishedPresentationsCover(doc: Document, draft: Option<seq<DraftSection>>)
    requires UniqueIds(doc)
    ensures ExactCover(doc, FinalPresentation(doc, draft).sections)
  {
    if draft.Some? {
      var resolve := Resolver(doc);
      forall path | resolve(path).Some? ensures resolve(path).value in ToSet(AllTargets(doc)) {
        PathsNameObservations(doc, path);
      }
      GroupsAreDisjoint(resolve, draft.value, ToSet(AllTargets(doc)));
      RestCompletes(doc, Grouped(resolve, draft.value));
    } else {
      RestCompletes(doc, []);
    }
  }

  // ---------- removing boilerplate ----------

  ghost predicate NoBoilerplate(rules: Rules, doc: Document) {
    forall b :: b in doc.blocks ==> !Boilerplate(rules, b.text)
  }

  /** Where an observation of the cleaned document stood before. */
  function Origin(doc: Document, removed: set<string>, p: Position): (q: Position)
    requires Has(WithoutBlocks(doc, removed), p)
    ensures Has(doc, q) && IdAt(doc, q) == IdAt(WithoutBlocks(doc, removed), p)
    ensures IsValue(q) == IsValue(p) && IsObservation(q) == IsObservation(p)
    ensures IsValue(p) ==> ValueAt(doc, q) == ValueAt(WithoutBlocks(doc, removed), p)
    ensures p.BlockAt? ==> IdAt(doc, q) !in removed
  {
    if p.BlockAt? then BlockAt(KeptIndex(doc.blocks, (b: Block) => b.id !in removed, p.i)) else p
  }

  lemma SurvivorsKeepTheirIds(doc: Document, removed: set<string>, q: Position) returns (p: Position)
    requires Has(doc, q) && (q.BlockAt? ==> IdAt(doc, q) !in removed)
    ensures Has(WithoutBlocks(doc, removed), p) && IdAt(WithoutBlocks(doc, removed), p) == IdAt(doc, q)
    ensures IsValue(q) == IsValue(p) && IsObservation(q) == IsObservation(p)
  {
    p := q;
    if q.BlockAt? {
      var keeps := (b: Block) => b.id !in removed;
      KeepMembers(doc.blocks, keeps);
      assert doc.blocks[q.i] in Keep(doc.blocks, keeps);
      var k :| 0 <= k < |Keep(doc.blocks, keeps)| && Keep(doc.blocks, keeps)[k] == doc.blocks[q.i];
      p := BlockAt(k);
    }
  }

  lemma UniqueIdsSurvive(doc: Document, removed: set<string>)
    requires UniqueIds(doc)
    ensures UniqueIds(WithoutBlocks(doc, removed))
  {
    var clean := WithoutBlocks(doc, removed);
    forall p, q | Has(clean, p) && Has(clean, q) && IdAt(clean, p) == IdAt(clean, q) ensures p == q {
      assert Origin(doc, removed, p) == Origin(doc, removed, q);
    }
  }

  /** Only the removed blocks are gone. */
  lemma TargetsAfterRemoval(rules: Rules, doc: Document)
    requires UniqueIds(doc)
    ensures var removed := RemovedIds(rules, doc);
            forall id :: id in AllTargets(WithoutBlocks(doc, removed)) <==> id in AllTargets(doc) && id !in removed
  {
    var removed := RemovedIds(rules, doc);
    var clean := WithoutBlocks(doc, removed);
    TargetsAreTheObservations(doc);
    TargetsAreTheObservations(clean);
    forall id | Observed(clean, id) ensures Observed(doc, id) && id !in removed {
      var p :| Has(clean, p) && IsObservation(p) && IdAt(clean, p) == id;
      var q := Origin(doc, removed, p);
      assert Has(doc, q) && IsObservation(q) && IdAt(doc, q) == id;
      if !p.BlockAt? {
        forall i | 0 <= i < |doc.blocks| ensures doc.blocks[i].id != id {
          assert BlockAt(i) != q && Has(doc, BlockAt(i)) && IdAt(doc, BlockAt(i)) == doc.blocks[i].id;
        }
      }
    }
    forall id | Observed(doc, id) && id !in removed ensures Observed(clean, id) {
      var q :| Has(doc, q) && IsObservation(q) && IdAt(doc, q) == id;
      var p := SurvivorsKeepTheirIds(doc, removed, q);
      assert Has(clean, p) && IsObservation(p) && IdAt(clean, p) == id;
    }
  }

  /** Cleaning the sections filters their targets and leaves no empty section. */
  lemma CleaningFilters(sections: seq<Section>, removed: set<string>)
    ensures Targets(Cleaned(sections, removed)) == Keep(Targets(sections), id => id !in removed)
    ensures NoEmptySection(Cleaned(sections, removed))
  {
    var stays := (id: string) => id !in removed;
    var inv := (i: nat, clean: seq<Section>) =>
      i <= |sections| && NoEmptySection(clean) && Targets(clean) == Keep(Targets(sections[..i]), stays);
    forall clean, i | 0 <= i < |sections| && inv(i, clean) ensures inv(i + 1, Cleaning(removed)(clean, sections[i])) {
      CleaningOne(sections, removed, i, clean);
    }
    assert sections[..0] == [] && Targets([]) == [] && Keep([], stays) == [];
    assert inv(0, []);
    FoldKeeps(sections, |sections|, [], Cleaning(removed), inv);
    assert sections[..|sections|] == sections;
    KeepSame(Targets(sections), stays, id => id !in removed);
  }

  lemma CleaningOne(sections: seq<Section>, removed: set<string>, i: nat, clean: seq<Section>)
    requires i < |sections| && NoEmptySection(clean)
    requires Targets(clean) == Keep(Targets(sections[..i]), id => id !in removed)
    ensures NoEmptySection(WithClean(removed, clean, sections[i]))
    ensures Targets(WithClean(removed, clean, sections[i])) == Keep(Targets(sections[..i + 1]), id => id !in removed)
  {
    var targets := Keep(sections[i].targets, id => id !in removed);
    assert sections[..i + 1] == sections[..i] + [sections[i]];
    TargetsGrow(sections[..i], sections[i]);
    KeepSplits(Targets(sections[..i]), sections[i].targets, id => id !in removed);
    if targets != [] {
      TargetsGrow(clean, sections[i].(targets := targets));
    }
  }

  lemma BoilerplateIsGone(rules: Rules, doc: Document)
    ensures NoBoilerplate(rules, WithoutBlocks(doc, RemovedIds(rules, doc)))
  {
    var removed := RemovedIds(rules, doc);
    KeepMembers(doc.blocks, (b: Block) => b.id !in removed);
    forall b | b in WithoutBlocks(doc, removed).blocks ensures !Boilerplate(rules, b.text) {
      assert b in doc.blocks && b.id !in removed;
      var i :| 0 <= i < |doc.blocks| && doc.blocks[i] == b;
    }
  }

  /** Removal leaves an exact cover of what remains. */
  lemma RemovalKeepsTheCover(rules: Rules, doc: Document, sections: seq<Section>)
    requires UniqueIds(doc) && ExactCover(doc, sections)
    ensures var removed := RemovedIds(rules, doc);
            ExactCover(WithoutBlocks(doc, removed), Cleaned(sections, removed))
  {
    var removed := RemovedIds(rules, doc);
    CleaningFilters(sections, removed);
    TargetsAfterRemoval(rules, doc);
    KeepMembers(Targets(sections), id => id !in removed);
    SameSet(doc, sections, WithoutBlocks(doc, removed), Cleaned(sections, removed), removed);
  }

  lemma SameSet(doc: Document, sections: seq<Section>, clean: Document, cleaned: seq<Section>, removed: set<string>)
    requires ToSet(Targets(sections)) == ToSet(AllTargets(doc))
    requires forall id :: id in AllTargets(clean) <==> id in AllTargets(doc) && id !in removed
    requires forall id :: id in Targets(cleaned) <==> id in Targets(sections) && id !in removed
    ensures ToSet(Targets(cleaned)) == ToSet(AllTargets(clean))
  {
    SetMembers(Targets(sections));
    SetMembers(AllTargets(doc));
    SetMembers(Targets(cleaned));
    SetMembers(AllTargets(clean));
    forall id ensures id in ToSet(Targets(cleaned)) <==> id in ToSet(AllTargets(clean)) {
      assert id in Targets(sections) <==> id in ToSet(Targets(sections));
      assert id in AllTargets(doc) <==> id in ToSet(AllTargets(doc));
    }
  }

  lemma IssuesStayLive(doc: Document, removed: set<string>, issues: seq<Issue>)
    requires forall issue :: issue in issues ==> Live(doc, issue.target)
    ensures forall issue :: issue in Keep(issues, (issue: Issue) => issue.target !in removed) ==>
                              Live(WithoutBlocks(doc, removed), issue.target)
  {
    KeepMembers(issues, (issue: Issue) => issue.target !in removed);
    forall issue | issue in issues && issue.target !in removed ensures Live(WithoutBlocks(doc, removed), issue.target) {
      var q :| Has(doc, q) && IsValue(q) && IdAt(doc, q) == issue.target;
      var p := SurvivorsKeepTheirIds(doc, removed, q);
      assert Has(WithoutBlocks(doc, removed), p) && IsValue(p) && IdAt(WithoutBlocks(doc, removed), p) == issue.target;
    }
  }

  /** Removal keeps unique ids, the exact cover and live issues, and leaves no boilerplate. */
  lemma RemovalIsSound(rules: Rules, doc: Document, presentation: Presentation, issues: seq<Issue>)
    requires UniqueIds(doc) && ExactCover(doc, presentation.sections)
    requires forall issue :: issue in issues ==> Live(doc, issue.target)
    ensures var (clean, shown, left) := Removed(rules, doc, presentation, issues);
            && UniqueIds(clean) && NoBoilerplate(rules, clean) && ExactCover(clean, shown.sections)
            && forall issue :: issue in left ==> Live(clean, issue.target)
  {
    var removed := RemovedIds(rules, doc);
    BoilerplateIsGone(rules, doc);
    if removed == {} {
      KeepAll(doc.blocks, (b: Block) => b.id !in removed);
    } else {
      UniqueIdsSurvive(doc, removed);
      RemovalKeepsTheCover(rules, doc, presentation.sections);
      IssuesStayLive(doc, removed, issues);
    }
  }
}
