/**
 The two quality detectors: one names a draft's observations by path, the other a finished document's by id.
 Each `…(n)` below is what a loop has collected after its first n elements.
 */
module QualityDetectors {
  import opened Wrappers
  import opened Decimal
  import opened Corrections
  import opened ExtractionSchema
  import opened TextRules

  const LIMIT := 200

  datatype Code = PossibleGibberish | PossibleOcrError | DuplicateObservation | IllegibleText

  /** The detectors' fixed messages, or the words of a reviewing model. */
  datatype Message =
    | DuplicatesEarlierField | SuspiciousField | SuspiciousText | SuspiciousCell | FromReview(words: string)

  datatype Candidate = Candidate(path: string, code: Code, message: Message, suggested: Option<string>)
  datatype Issue = Issue(target: string, code: Code, message: Message, suggested: Option<string>)

  function Truncate<T>(s: seq<T>): seq<T> {
    if |s| <= LIMIT then s else s[..LIMIT]
  }

  // ---------- paths ----------

  function FieldPath(i: nat): string {
    Pointer(["fields", Render(i)])
  }

  function BlockPath(i: nat): string {
    Pointer(["text_blocks", Render(i)])
  }

  function CellPath(t: nat, r: nat, c: nat): string {
    Pointer(["tables", Render(t), "rows", Render(r), Render(c)])
  }

  predicate Numeral(s: string) {
    s != "" && AllDigits(s)
  }

  /** The observation a path names, if the path has one of the three forms and the index is in range. */
  function TargetPosition(doc: Document, path: string): (p: Option<Position>)
    ensures p.Some? ==> Has(doc, p.value) && IsValue(p.value)
  {
    var parts := Split(path);
    var found :=
      if |parts| == 3 && parts[0] == "" && parts[1] == "fields" && Numeral(parts[2]) then
        Some(FieldAt(Parse(parts[2])))
      else if |parts| == 3 && parts[0] == "" && parts[1] == "text_blocks" && Numeral(parts[2]) then
        Some(BlockAt(Parse(parts[2])))
      else if
        && |parts| == 6 && parts[0] == "" && parts[1] == "tables" && Numeral(parts[2])
        && parts[3] == "rows" && Numeral(parts[4]) && Numeral(parts[5])
      then
        Some(CellAt(Parse(parts[2]), Parse(parts[4]), Parse(parts[5])))
      else None;
    if found.Some? && Has(doc, found.value) then found else None
  }

  function TargetId(doc: Document, path: string): Option<string> {
    match TargetPosition(doc, path) case None => None case Some(p) => Some(IdAt(doc, p))
  }

  function PathOf(p: Position): string
    requires IsValue(p)
  {
    match p
    case FieldAt(i) => FieldPath(i)
    case BlockAt(i) => BlockPath(i)
    case CellAt(t, r, c) => CellPath(t, r, c)
  }

  lemma NumeralIsPlain(n: nat)
    ensures PlainToken(Render(n))
  {
    assert forall i :: 0 <= i < |Render(n)| ==> IsDigit(Render(n)[i]);
  }

  lemma TwoTokens(a: string, n: nat)
    requires PlainToken(a)
    ensures Split(Pointer([a, Render(n)])) == ["", a, Render(n)]
    ensures Numeral(Render(n)) && Parse(Render(n)) == n
  {
    NumeralIsPlain(n);
    ParseRender(n);
    SplitPointer([a, Render(n)]);
  }

  lemma FiveTokens(t: nat, r: nat, c: nat)
    ensures Split(CellPath(t, r, c)) == ["", "tables", Render(t), "rows", Render(r), Render(c)]
    ensures Numeral(Render(t)) && Numeral(Render(r)) && Numeral(Render(c))
    ensures Parse(Render(t)) == t && Parse(Render(r)) == r && Parse(Render(c)) == c
  {
    NumeralIsPlain(t);
    NumeralIsPlain(r);
    NumeralIsPlain(c);
    ParseRender(t);
    ParseRender(r);
    ParseRender(c);
    SplitPointer(["tables", Render(t), "rows", Render(r), Render(c)]);
  }

  /** The path written for an observation leads back to exactly that observation. */
  lemma PathNamesItsPosition(doc: Document, p: Position)
    requires Has(doc, p) && IsValue(p)
    ensures TargetPosition(doc, PathOf(p)) == Some(p)
  {
    match p
    case FieldAt(i) => TwoTokens("fields", i);
    case BlockAt(i) => TwoTokens("text_blocks", i);
    case CellAt(t, r, c) => FiveTokens(t, r, c);
  }

  // ---------- over a draft ----------

  predicate RepeatsEarlier(rules: Rules, fields: seq<DraftField>, i: nat)
    requires i < |fields|
  {
    exists j | 0 <= j < i :: rules.identity(fields[j].name, fields[j].value) == rules.identity(fields[i].name, fields[i].value)
  }

  function FieldCandidates(rules: Rules, fields: seq<DraftField>, n: nat): seq<Candidate>
    requires n <= |fields|
  {
    if n == 0 then []
    else
      var i := n - 1;
      FieldCandidates(rules, fields, i)
      + (if RepeatsEarlier(rules, fields, i) then [Candidate(FieldPath(i), DuplicateObservation, DuplicatesEarlierField, None)] else [])
      + (if rules.suspicious(fields[i].name) || rules.suspicious(fields[i].value)
         then [Candidate(FieldPath(i), PossibleGibberish, SuspiciousField, None)] else [])
  }

  function BlockCandidates(rules: Rules, blocks: seq<DraftBlock>, n: nat): seq<Candidate>
    requires n <= |blocks|
  {
    if n == 0 then []
    else
      BlockCandidates(rules, blocks, n - 1)
      + (if rules.suspicious(blocks[n - 1].text) then [Candidate(BlockPath(n - 1), PossibleGibberish, SuspiciousText, None)] else [])
  }

  function CellCandidates(rules: Rules, t: nat, r: nat, row: seq<string>, n: nat): seq<Candidate>
    requires n <= |row|
  {
    if n == 0 then []
    else
      CellCandidates(rules, t, r, row, n - 1)
      + (if rules.suspicious(row[n - 1]) then [Candidate(CellPath(t, r, n - 1), PossibleGibberish, SuspiciousCell, None)] else [])
  }

  function RowCandidates(rules: Rules, t: nat, rows: seq<seq<string>>, n: nat): seq<Candidate>
    requires n <= |rows|
  {
    if n == 0 then [] else RowCandidates(rules, t, rows, n - 1) + CellCandidates(rules, t, n - 1, rows[n - 1], |rows[n - 1]|)
  }

  function TableCandidates(rules: Rules, tables: seq<DraftTable>, n: nat): seq<Candidate>
    requires n <= |tables|
  {
    if n == 0 then []
    else TableCandidates(rules, tables, n - 1) + RowCandidates(rules, n - 1, tables[n - 1].rows, |tables[n - 1].rows|)
  }

  function Candidates(rules: Rules, draft: Draft): seq<Candidate> {
    FieldCandidates(rules, draft.fields, |draft.fields|) + BlockCandidates(rules, draft.blocks, |draft.blocks|)
    + TableCandidates(rules, draft.tables, |draft.tables|)
  }

  method CandidatesInFields(rules: Rules, fields: seq<DraftField>) returns (candidates: seq<Candidate>)
    ensures candidates == FieldCandidates(rules, fields, |fields|)
  {
    candidates := [];
    var seen: set<(string, string)> := {};
    for i := 0 to |fields|
      invariant candidates == FieldCandidates(rules, fields, i)
      invariant seen == set j | 0 <= j < i :: rules.identity(fields[j].name, fields[j].value)
    {
      var identity := rules.identity(fields[i].name, fields[i].value);
      if identity in seen {
        candidates := candidates + [Candidate(FieldPath(i), DuplicateObservation, DuplicatesEarlierField, None)];
      }
      seen := seen + {identity};
      if rules.suspicious(fields[i].name) || rules.suspicious(fields[i].value) {
        candidates := candidates + [Candidate(FieldPath(i), PossibleGibberish, SuspiciousField, None)];
      }
    }
  }

  method CandidatesInTable(rules: Rules, t: nat, rows: seq<seq<string>>) returns (candidates: seq<Candidate>)
    ensures candidates == RowCandidates(rules, t, rows, |rows|)
  {
    candidates := [];
    for r := 0 to |rows|
      invariant candidates == RowCandidates(rules, t, rows, r)
    {
      var earlier := candidates;
      for c := 0 to |rows[r]|
        invariant candidates == earlier + CellCandidates(rules, t, r, rows[r], c)
      {
        if rules.suspicious(rows[r][c]) {
          candidates := candidates + [Candidate(CellPath(t, r, c), PossibleGibberish, SuspiciousCell, None)];
        }
      }
    }
  }

  method DeterministicQualityCandidates(rules: Rules, draft: Draft) returns (candidates: seq<Candidate>)
    ensures candidates == Truncate(Candidates(rules, draft))
  {
    var found := CandidatesInFields(rules, draft.fields);
    candidates := found;
    for i := 0 to |draft.blocks|
      invariant candidates == found + BlockCandidates(rules, draft.blocks, i)
    {
      if rules.suspicious(draft.blocks[i].text) {
        candidates := candidates + [Candidate(BlockPath(i), PossibleGibberish, SuspiciousText, None)];
      }
    }
    found := candidates;
    for t := 0 to |draft.tables|
      invariant candidates == found + TableCandidates(rules, draft.tables, t)
    {
      var inTable := CandidatesInTable(rules, t, draft.tables[t].rows);
      candidates := candidates + inTable;
    }
    candidates := Truncate(candidates);
  }

  // ---------- over a finished document ----------

  predicate DuplicatesEarlier(rules: Rules, fields: seq<Field>, i: nat)
    requires i < |fields|
  {
    exists j | 0 <= j < i :: rules.identity(fields[j].name, fields[j].value) == rules.identity(fields[i].name, fields[i].value)
  }

  function FieldIssues(rules: Rules, fields: seq<Field>, n: nat): seq<Issue>
    requires n <= |fields|
  {
    if n == 0 then []
    else
      var i := n - 1;
      FieldIssues(rules, fields, i)
      + (if DuplicatesEarlier(rules, fields, i) then [Issue(fields[i].id, DuplicateObservation, DuplicatesEarlierField, None)] else [])
      + (if rules.suspicious(fields[i].name) || rules.suspicious(fields[i].value)
         then [Issue(fields[i].id, PossibleGibberish, SuspiciousField, None)] else [])
  }

  function BlockIssues(rules: Rules, blocks: seq<Block>, n: nat): seq<Issue>
    requires n <= |blocks|
  {
    if n == 0 then []
    else
      BlockIssues(rules, blocks, n - 1)
      + (if rules.suspicious(blocks[n - 1].text) then [Issue(blocks[n - 1].id, PossibleGibberish, SuspiciousText, None)] else [])
  }

  function CellIssues(rules: Rules, cells: seq<Cell>, n: nat): seq<Issue>
    requires n <= |cells|
  {
    if n == 0 then []
    else
      CellIssues(rules, cells, n - 1)
      + (if rules.suspicious(cells[n - 1].value) then [Issue(cells[n - 1].id, PossibleGibberish, SuspiciousCell, None)] else [])
  }

  function RowIssues(rules: Rules, rows: seq<Row>, n: nat): seq<Issue>
    requires n <= |rows|
  {
    if n == 0 then [] else RowIssues(rules, rows, n - 1) + CellIssues(rules, rows[n - 1].cells, |rows[n - 1].cells|)
  }

  function TableIssues(rules: Rules, tables: seq<Table>, n: nat): seq<Issue>
    requires n <= |tables|
  {
    if n == 0 then []
    else TableIssues(rules, tables, n - 1) + RowIssues(rules, tables[n - 1].rows, |tables[n - 1].rows|)
  }

  function Issues(rules: Rules, doc: Document): seq<Issue> {
    FieldIssues(rules, doc.fields, |doc.fields|) + BlockIssues(rules, doc.blocks, |doc.blocks|)
    + TableIssues(rules, doc.tables, |doc.tables|)
  }

  method IssuesInFields(rules: Rules, fields: seq<Field>) returns (issues: seq<Issue>)
    ensures issues == FieldIssues(rules, fields, |fields|)
  {
    issues := [];
    var seen: set<(string, string)> := {};
    for i := 0 to |fields|
      invariant issues == FieldIssues(rules, fields, i)
      invariant seen == set j | 0 <= j < i :: rules.identity(fields[j].name, fields[j].value)
    {
      var identity := rules.identity(fields[i].name, fields[i].value);
      if identity in seen {
        issues := issues + [Issue(fields[i].id, DuplicateObservation, DuplicatesEarlierField, None)];
      }
      seen := seen + {identity};
      if rules.suspicious(fields[i].name) || rules.suspicious(fields[i].value) {
        issues := issues + [Issue(fields[i].id, PossibleGibberish, SuspiciousField, None)];
      }
    }
  }

  method IssuesInTable(rules: Rules, rows: seq<Row>) returns (issues: seq<Issue>)
    ensures issues == RowIssues(rules, rows, |rows|)
  {
    issues := [];
    for r := 0 to |rows|
      invariant issues == RowIssues(rules, rows, r)
    {
      var earlier := issues;
      var cells := rows[r].cells;
      for c := 0 to |cells|
        invariant issues == earlier + CellIssues(rules, cells, c)
      {
        if rules.suspicious(cells[c].value) {
          issues := issues + [Issue(cells[c].id, PossibleGibberish, SuspiciousCell, None)];
        }
      }
    }
  }

  method DeterministicQualityIssues(rules: Rules, doc: Document) returns (issues: seq<Issue>)
    ensures issues == Truncate(Issues(rules, doc))
  {
    var found := IssuesInFields(rules, doc.fields);
    issues := found;
    for i := 0 to |doc.blocks|
      invariant issues == found + BlockIssues(rules, doc.blocks, i)
    {
      if rules.suspicious(doc.blocks[i].text) {
        issues := issues + [Issue(doc.blocks[i].id, PossibleGibberish, SuspiciousText, None)];
      }
    }
    found := issues;
    for t := 0 to |doc.tables|
      invariant issues == found + TableIssues(rules, doc.tables, t)
    {
      var inTable := IssuesInTable(rules, doc.tables[t].rows);
      issues := issues + inTable;
    }
    issues := Truncate(issues);
  }
}
