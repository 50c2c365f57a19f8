/** Sections over the observations of a document: grouping, removal of boilerplate, reading back what was stored. */
module Presentation {
  import opened Wrappers
  import opened TextNormalization
  import opened Decimal
  import opened Corrections
  import opened ExtractionSchema
  import opened TextRules
  import opened QualityDetectors
  import opened Sequences

  datatype DraftSection = DraftSection(title: string, paths: seq<string>)
  /** A section id is `section-` and the section's number in four digits; the model keeps the number. */
  datatype Section = Section(number: nat, title: string, targets: seq<string>)
  datatype Presentation = Presentation(sections: seq<Section>, excluded: seq<string>)

  // ---------- the observations of a document ----------

  datatype Observation = Observation(page: int, kind: nat, index: nat, id: string)

  predicate NotAfter(a: Observation, b: Observation) {
    || a.page < b.page
    || (a.page == b.page && (a.kind < b.kind || (a.kind == b.kind && a.index <= b.index)))
  }

  function Min(s: seq<int>): (m: int)
    requires s != []
    ensures m in s && forall x :: x in s ==> m <= x
  {
    if |s| == 1 then s[0]
    else
      assert s == [s[0]] + s[1..];
      var m := Min(s[1..]);
      if s[0] <= m then s[0] else m
  }

  /** The k-th observation: fields first, then tables, then text blocks. */
  function Slot(doc: Document, k: nat): (p: Position)
    requires k < |doc.fields| + |doc.tables| + |doc.blocks|
    ensures Has(doc, p) && IsObservation(p)
  {
    if k < |doc.fields| then FieldAt(k)
    else if k < |doc.fields| + |doc.tables| then TableAt(k - |doc.fields|)
    else BlockAt(k - |doc.fields| - |doc.tables|)
  }

  function SlotOf(doc: Document, p: Position): (k: nat)
    requires Has(doc, p) && IsObservation(p)
    ensures k < |doc.fields| + |doc.tables| + |doc.blocks| && Slot(doc, k) == p
  {
    match p
    case FieldAt(i) => i
    case TableAt(t) => |doc.fields| + t
    case BlockAt(i) => |doc.fields| + |doc.tables| + i
  }

  function ObservationAt(doc: Document, p: Position): Observation
    requires Has(doc, p) && IsObservation(p)
  {
    match p
    case FieldAt(i) => Observation(doc.fields[i].page, 0, i, doc.fields[i].id)
    case TableAt(t) => Observation(Min(doc.tables[t].pages), 1, t, doc.tables[t].id)
    case BlockAt(i) => Observation(doc.blocks[i].page, 2, i, doc.blocks[i].id)
  }

  function Observations(doc: Document): seq<Observation> {
    var n := |doc.fields| + |doc.tables| + |doc.blocks|;
    seq(n, k requires 0 <= k < n => ObservationAt(doc, Slot(doc, k)))
  }

  predicate InOrder(s: seq<Observation>) {
    forall i, j :: 0 <= i < j < |s| ==> NotAfter(s[i], s[j])
  }

  function Insert(o: Observation, s: seq<Observation>): seq<Observation> {
    if s == [] || NotAfter(o, s[0]) then [o] + s else [s[0]] + Insert(o, s[1..])
  }

  lemma PrependedInOrder(o: Observation, s: seq<Observation>)
    requires InOrder(s) && forall x :: x in s ==> NotAfter(o, x)
    ensures InOrder([o] + s)
  {
    var whole := [o] + s;
    forall i, j | 0 <= i < j < |whole| ensures NotAfter(whole[i], whole[j]) {
      assert whole[j] == s[j - 1] && whole[j] in s;
    }
  }

  lemma {:induction false} InsertKeepsOrder(o: Observation, s: seq<Observation>)
    requires InOrder(s)
    ensures InOrder(Insert(o, s)) && multiset(Insert(o, s)) == multiset(s) + multiset{o}
  {
    if s == [] || NotAfter(o, s[0]) {
      forall x | x in s ensures NotAfter(o, x) {
        assert x == s[0] || NotAfter(s[0], x);
      }
      PrependedInOrder(o, s);
    } else {
      var rest := Insert(o, s[1..]);
      InsertKeepsOrder(o, s[1..]);
      assert s == [s[0]] + s[1..];
      forall x | x in rest ensures NotAfter(s[0], x) {
        assert x in multiset(rest);
        assert x == o || x in s[1..];
      }
      PrependedInOrder(s[0], rest);
    }
  }

  function Sorted(s: seq<Observation>): seq<Observation> {
    if s == [] then [] else Insert(s[0], Sorted(s[1..]))
  }

  lemma {:induction false} SortedIsInOrder(s: seq<Observation>)
    ensures InOrder(Sorted(s)) && multiset(Sorted(s)) == multiset(s)
  {
    if s != [] {
      SortedIsInOrder(s[1..]);
      InsertKeepsOrder(s[0], Sorted(s[1..]));
      assert s == [s[0]] + s[1..];
    }
  }

  function IdsOf(s: seq<Observation>): seq<string> {
    seq(|s|, i requires 0 <= i < |s| => s[i].id)
  }

  /** Every observation by page, then kind, then position. */
  function AllTargets(doc: Document): seq<string> {
    IdsOf(Sorted(Observations(doc)))
  }

  ghost predicate Observed(doc: Document, id: string) {
    exists p :: Has(doc, p) && IsObservation(p) && IdAt(doc, p) == id
  }

  lemma IdsOfMembers(s: seq<Observation>)
    ensures forall id :: id in IdsOf(s) <==> exists o :: o in s && o.id == id
  {
    forall o | o in s ensures o.id in IdsOf(s) {
      var i :| 0 <= i < |s| && s[i] == o;
      assert IdsOf(s)[i] == o.id;
    }
    forall id | id in IdsOf(s) ensures exists o :: o in s && o.id == id {
      var i :| 0 <= i < |s| && IdsOf(s)[i] == id;
      assert s[i] in s;
    }
  }

  lemma ObservationsAreNamed(doc: Document, id: string)
    ensures (exists o :: o in Observations(doc) && o.id == id) <==> Observed(doc, id)
  {
    var all := Observations(doc);
    if o :| o in all && o.id == id {
      var k :| 0 <= k < |all| && all[k] == o;
      assert IdAt(doc, Slot(doc, k)) == id;
    }
    if p :| Has(doc, p) && IsObservation(p) && IdAt(doc, p) == id {
      assert all[SlotOf(doc, p)] in all;
    }
  }

  lemma DistinctIds(s: seq<Observation>)
    requires NoDup(s) && forall o, q :: o in s && q in s && o.id == q.id ==> o == q
    ensures NoDup(IdsOf(s))
  {
    forall i, j | 0 <= i < j < |s| ensures IdsOf(s)[i] != IdsOf(s)[j] {
      assert s[i] in s && s[j] in s && s[i] != s[j];
    }
  }

  /** The targets are the ids of the observations, each once when ids are unique. */
  lemma TargetsAreTheObservations(doc: Document)
    ensures forall id :: id in AllTargets(doc) <==> Observed(doc, id)
    ensures UniqueIds(doc) ==> NoDup(AllTargets(doc))
    ensures |AllTargets(doc)| == |doc.fields| + |doc.tables| + |doc.blocks|
  {
    var all, sorted := Observations(doc), Sorted(Observations(doc));
    SortedIsInOrder(all);
    Permuted(all, sorted);
    IdsOfMembers(sorted);
    forall id ensures id in AllTargets(doc) <==> Observed(doc, id) {
      ObservationsAreNamed(doc, id);
      assert forall o :: o in all <==> o in sorted;
    }
    if UniqueIds(doc) {
      IdsTellObservationsApart(doc);
      DistinctIds(sorted);
    }
  }

  lemma IdsTellObservationsApart(doc: Document)
    requires UniqueIds(doc)
    ensures NoDup(Observations(doc))
    ensures forall o, q :: o in Observations(doc) && q in Observations(doc) && o.id == q.id ==> o == q
  {
    var all := Observations(doc);
    forall i, j | 0 <= i < |all| && 0 <= j < |all| && all[i].id == all[j].id ensures i == j {
      assert IdAt(doc, Slot(doc, i)) == IdAt(doc, Slot(doc, j));
    }
  }

  // ---------- grouping what a model drafted ----------

  /** The bounds of the draft schema. */
  predicate SectionsAccepted(drafted: seq<DraftSection>) {
    && |drafted| <= 100
    && forall k :: 0 <= k < |drafted| ==> 1 <= |drafted[k].title| <= 200 && 1 <= |drafted[k].paths| <= 2600
  }

  function PresentationTarget(doc: Document, path: string): Option<string> {
    var parts := Split(path);
    if |parts| != 3 || parts[0] != "" || !Numeral(parts[2]) then None
    else
      var i := Parse(parts[2]);
      if parts[1] == "fields" && i < |doc.fields| then Some(doc.fields[i].id)
      else if parts[1] == "tables" && i < |doc.tables| then Some(doc.tables[i].id)
      else if parts[1] == "text_blocks" && i < |doc.blocks| then Some(doc.blocks[i].id)
      else None
  }

  function Resolver(doc: Document): string -> Option<string> {
    path => PresentationTarget(doc, path)
  }

  /** All targets of all sections, in order. */
  function Targets(sections: seq<Section>): seq<string> {
    if sections == [] then [] else Targets(sections[..|sections| - 1]) + sections[|sections| - 1].targets
  }

  /** What the first n paths add to a section: known targets that no section has yet. */
  function Picked(resolve: string -> Option<string>, paths: seq<string>, n: nat, taken: set<string>): seq<string>
    requires n <= |paths|
  {
    if n == 0 then []
    else
      var before := Picked(resolve, paths, n - 1, taken);
      match resolve(paths[n - 1])
      case None => before
      case Some(id) => if id in taken || id in before then before else before + [id]
  }

  function SectionTitle(title: string): string {
    if Strip(title) != "" then Strip(title) else "Document section"
  }

  /** One more drafted section: kept only if it places something. */
  function WithGroup(resolve: string -> Option<string>, before: seq<Section>, section: DraftSection): seq<Section> {
    var targets := Picked(resolve, section.paths, |section.paths|, ToSet(Targets(before)));
    if targets == [] then before else before + [Section(|before| + 1, SectionTitle(section.title), targets)]
  }

  function Grouping(resolve: string -> Option<string>): (seq<Section>, DraftSection) -> seq<Section> {
    (before, section) => WithGroup(resolve, before, section)
  }

  function Grouped(resolve: string -> Option<string>, drafted: seq<DraftSection>): seq<Section> {
    Fold(drafted, |drafted|, [], Grouping(resolve))
  }

  /** A last section collects what is in none of the others. */
  function WithRest(sections: seq<Section>, rest: seq<string>): seq<Section> {
    if rest == [] then sections
    else
      var title := if sections != [] then "Additional information" else "Document details";
      sections + [Section(|sections| + 1, title, rest)]
  }

  function Ungrouped(doc: Document, sections: seq<Section>): seq<string> {
    Keep(AllTargets(doc), id => id !in ToSet(Targets(sections)))
  }

  function FinalPresentation(doc: Document, draft: Option<seq<DraftSection>>): Presentation {
    var sections := match draft case None => [] case Some(drafted) => Grouped(Resolver(doc), drafted);
    Presentation(WithRest(sections, Ungrouped(doc, sections)), [])
  }

  method PickTargets(resolve: string -> Option<string>, paths: seq<string>, taken: set<string>)
    returns (targets: seq<string>, placed: set<string>)
    ensures targets == Picked(resolve, paths, |paths|, taken)
    ensures placed == taken + ToSet(targets)
  {
    targets, placed := [], taken;
    for j := 0 to |paths|
      invariant targets == Picked(resolve, paths, j, taken)
      invariant placed == taken + ToSet(targets)
    {
      var id := resolve(paths[j]);
      SetMembers(targets);
      if id.None? || id.value in placed {
        continue;
      }
      ToSetGrows(targets, [id.value]);
      assert [id.value][0] == id.value && ToSet([id.value]) == {id.value};
      placed := placed + {id.value};
      targets := targets + [id.value];
    }
  }

  method GroupSections(resolve: string -> Option<string>, drafted: seq<DraftSection>)
    returns (sections: seq<Section>, placed: set<string>)
    ensures sections == Grouped(resolve, drafted)
    ensures placed == ToSet(Targets(sections))
  {
    sections, placed := [], {};
    for i := 0 to |drafted|
      invariant sections == Fold(drafted, i, [], Grouping(resolve))
      invariant placed == ToSet(Targets(sections))
    {
      sections, placed := AddGroup(resolve, sections, placed, drafted[i]);
    }
  }

  method AddGroup(resolve: string -> Option<string>, before: seq<Section>, taken: set<string>, section: DraftSection)
    returns (sections: seq<Section>, placed: set<string>)
    requires taken == ToSet(Targets(before))
    ensures sections == Grouping(resolve)(before, section)
    ensures placed == ToSet(Targets(sections))
  {
    var targets;
    targets, placed := PickTargets(resolve, section.paths, taken);
    if targets == [] {
      return before, taken;
    }
    var added := Section(|before| + 1, SectionTitle(section.title), targets);
    TargetsGrow(before, added);
    sections := before + [added];
  }

  method FinalizePresentation(doc: Document, draft: Option<seq<DraftSection>>) returns (presentation: Presentation)
    ensures presentation == FinalPresentation(doc, draft)
  {
    var sections, placed := [], {};
    if draft.Some? {
      sections, placed := GroupSections(Resolver(doc), draft.value);
    }
    var unplaced := Keep(AllTargets(doc), id => id !in placed);
    KeepSame(AllTargets(doc), id => id !in placed, id => id !in ToSet(Targets(sections)));
    return Presentation(WithRest(sections, unplaced), []);
  }

  lemma TargetsGrow(sections: seq<Section>, section: Section)
    ensures Targets(sections + [section]) == Targets(sections) + section.targets
    ensures ToSet(Targets(sections + [section])) == ToSet(Targets(sections)) + ToSet(section.targets)
  {
    assert (sections + [section])[..|sections|] == sections;
    ToSetGrows(Targets(sections), section.targets);
  }

  lemma ToSetGrows<T>(a: seq<T>, b: seq<T>)
    ensures ToSet(a + b) == ToSet(a) + ToSet(b)
  {
    SetMembers(a);
    SetMembers(b);
    SetMembers(a + b);
    forall x ensures x in ToSet(a + b) <==> x in ToSet(a) + ToSet(b) {
      assert x in a + b <==> x in a || x in b;
    }
  }

  // ---------- removing boilerplate ----------

  function RemovedIds(rules: Rules, doc: Document): set<string> {
    set i | 0 <= i < |doc.blocks| && Boilerplate(rules, doc.blocks[i].text) :: doc.blocks[i].id
  }

  function WithoutBlocks(doc: Document, removed: set<string>): Document {
    doc.(blocks := Keep(doc.blocks, (b: Block) => b.id !in removed))
  }

  /** One more section: what is left of it, unless nothing is. */
  function WithClean(removed: set<string>, before: seq<Section>, section: Section): seq<Section> {
    var targets := Keep(section.targets, id => id !in removed);
    if targets == [] then before else before + [section.(targets := targets)]
  }

  function Cleaning(removed: set<string>): (seq<Section>, Section) -> seq<Section> {
    (before, section) => WithClean(removed, before, section)
  }

  function Cleaned(sections: seq<Section>, removed: set<string>): seq<Section> {
    Fold(sections, |sections|, [], Cleaning(removed))
  }

  function WithoutIds(presentation: Presentation, removed: set<string>): Presentation {
    Presentation(
      Cleaned(presentation.sections, removed),
      Keep(presentation.excluded, id => id !in removed))
  }

  function Removed(rules: Rules, doc: Document, presentation: Presentation, issues: seq<Issue>)
    : (Document, Presentation, seq<Issue>)
  {
    var removed := RemovedIds(rules, doc);
    if removed == {} then (doc, presentation, issues)
    else
      (WithoutBlocks(doc, removed), WithoutIds(presentation, removed),
       Keep(issues, (issue: Issue) => issue.target !in removed))
  }

  method RemoveNonAccountingBoilerplate(rules: Rules, doc: Document, presentation: Presentation, issues: seq<Issue>)
    returns (cleanDoc: Document, cleanPresentation: Presentation, cleanIssues: seq<Issue>)
    ensures (cleanDoc, cleanPresentation, cleanIssues) == Removed(rules, doc, presentation, issues)
  {
    var removed := RemovedIds(rules, doc);
    if removed == {} {
      return doc, presentation, issues;
    }
    var sections := CleanSections(presentation.sections, removed);
    cleanDoc := WithoutBlocks(doc, removed);
    cleanPresentation := Presentation(sections, Keep(presentation.excluded, id => id !in removed));
    cleanIssues := Keep(issues, (issue: Issue) => issue.target !in removed);
  }

  method CleanSections(sections: seq<Section>, removed: set<string>) returns (clean: seq<Section>)
    ensures clean == Cleaned(sections, removed)
  {
    clean := [];
    for i := 0 to |sections|
      invariant clean == Fold(sections, i, [], Cleaning(removed))
    {
      var targets := Keep(sections[i].targets, id => id !in removed);
      if targets != [] {
        clean := clean + [sections[i].(targets := targets)];
      }
    }
  }

  // ---------- reading back what was stored ----------

  /** What the presentation column holds: nothing, something the schema rejects, or a presentation. */
  datatype StoredPresentation = Absent | Invalid | Stored(presentation: Presentation)

  predicate ValidSection(section: Section) {
    section.number < 10000 && 1 <= |section.title| <= 200 && 1 <= |section.targets| <= 2600
  }

  /** The bounds of the schema; exclusions must not repeat. */
  predicate ValidPresentation(p: Presentation) {
    && |p.sections| <= 101 && (forall k :: 0 <= k < |p.sections| ==> ValidSection(p.sections[k]))
    && |p.excluded| <= 2600 && NoDup(p.excluded)
  }

  /** What fails validation is read as an empty presentation. */
  function Readable(stored: StoredPresentation): Presentation {
    if stored.Stored? && ValidPresentation(stored.presentation) then stored.presentation else Presentation([], [])
  }

  /** One more stored section: its known targets that no earlier section has. */
  function WithKnown(known: set<string>, before: seq<Section>, section: Section): seq<Section> {
    var targets := Keep(section.targets, id => id in known && id !in ToSet(Targets(before)));
    if targets == [] then before else before + [Section(|before| + 1, section.title, targets)]
  }

  function Knowing(known: set<string>): (seq<Section>, Section) -> seq<Section> {
    (before, section) => WithKnown(known, before, section)
  }

  function KnownSections(sections: seq<Section>, known: set<string>): seq<Section> {
    Fold(sections, |sections|, [], Knowing(known))
  }

  /** The presentation read back; nothing when a last section would be one too many for the schema. */
  function CoercedPresentation(stored: StoredPresentation, doc: Document): Option<Presentation> {
    if stored.Absent? then Some(FinalPresentation(doc, None))
    else
      var read, known := Readable(stored), ToSet(AllTargets(doc));
      var sections := KnownSections(read.sections, known);
      var all := WithRest(sections, Ungrouped(doc, sections));
      if |all| > 101 then None else Some(Presentation(all, Keep(read.excluded, id => id in known)))
  }

  method CoerceStoredPresentation(stored: StoredPresentation, doc: Document) returns (presentation: Option<Presentation>)
    ensures presentation == CoercedPresentation(stored, doc)
  {
    if stored.Absent? {
      var finished := FinalizePresentation(doc, None);
      return Some(finished);
    }
    var read := Readable(stored);
    var known := ToSet(AllTargets(doc));
    var sections, placed := CoerceSections(read.sections, known);
    var missing := known - placed;
    var orderedMissing := Keep(AllTargets(doc), id => id in missing);
    KeepSame(AllTargets(doc), id => id in missing, id => id !in ToSet(Targets(sections)));
    var all := WithRest(sections, orderedMissing);
    if |all| > 101 {
      return None;
    }
    return Some(Presentation(all, Keep(read.excluded, id => id in known)));
  }

  method CoerceSections(stored: seq<Section>, known: set<string>) returns (sections: seq<Section>, placed: set<string>)
    ensures sections == KnownSections(stored, known)
    ensures placed == ToSet(Targets(sections))
  {
    sections, placed := [], {};
    for i := 0 to |stored|
      invariant sections == Fold(stored, i, [], Knowing(known))
      invariant placed == ToSet(Targets(sections))
    {
      sections, placed := CoerceSection(known, sections, placed, stored[i]);
    }
  }

  method CoerceSection(known: set<string>, before: seq<Section>, taken: set<string>, section: Section)
    returns (sections: seq<Section>, placed: set<string>)
    requires taken == ToSet(Targets(before))
    ensures sections == Knowing(known)(before, section)
    ensures placed == ToSet(Targets(sections))
  {
    var targets := Keep(section.targets, id => id in known && id !in taken);
    KeepSame(section.targets, id => id in known && id !in taken, id => id in known && id !in ToSet(Targets(before)));
    if targets == [] {
      return before, taken;
    }
    var added := Section(|before| + 1, section.title, targets);
    TargetsGrow(before, added);
    return before + [added], taken + ToSet(targets);
  }
}
