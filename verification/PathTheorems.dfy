/** Which paths name which part of a document, spelled out; every other path names nothing. */
module PathTheorems {
  import opened Wrappers
  import opened Decimal
  import opened Corrections
  import opened ExtractionSchema
  import opened QualityDetectors
  import opened Presentation

  /** A numeral of this value; leading zeros do not matter. */
  predicate Reads(digits: string, n: nat) {
    digits != "" && AllDigits(digits) && Parse(digits) == n
  }

  function Index(p: Position): nat
    requires IsObservation(p)
  {
    match p case FieldAt(i) => i case TableAt(t) => t case BlockAt(i) => i
  }

  function Prefix(p: Position): string
    requires IsObservation(p)
  {
    match p case FieldAt(_) => "/fields/" case TableAt(_) => "/tables/" case BlockAt(_) => "/text_blocks/"
  }

  /** `/tables/`, the table's number, `/rows/`, the row's and the column's. */
  function CellText(d: string, e: string, f: string): string {
    "/tables/" + d + "/rows/" + e + "/" + f
  }

  /** The path is written for this part of a document. */
  ghost predicate Addresses(path: string, p: Position) {
    if IsObservation(p) then exists d :: Reads(d, Index(p)) && path == Prefix(p) + d
    else
      && p.CellAt?
      && exists d, e, f :: Reads(d, p.t) && Reads(e, p.r) && Reads(f, p.c) && path == CellText(d, e, f)
  }

  /** Parts with a slash between any two. */
  function Slashed(parts: seq<string>): string
    requires parts != []
  {
    if |parts| == 1 then parts[0] else parts[0] + "/" + Slashed(parts[1..])
  }

  lemma {:induction false} SplitIsSlashed(s: string)
    ensures Slashed(Split(s)) == s
  {
    if s != "" {
      var rest := Split(s[1..]);
      SplitIsSlashed(s[1..]);
      if s[0] == '/' {
        assert ([""] + rest)[1..] == rest;
      } else {
        var whole := [[s[0]] + rest[0]] + rest[1..];
        assert whole[1..] == rest[1..];
      }
    }
  }

  lemma {:induction false} SlashedIsSplit(parts: seq<string>)
    requires parts != [] && forall k :: 0 <= k < |parts| ==> '/' !in parts[k]
    ensures Split(Slashed(parts)) == parts
  {
    if |parts| == 1 {
      SplitAtSlash(parts[0], "");
    } else {
      SlashedIsSplit(parts[1..]);
      SplitAtSlash(parts[0], Slashed(parts[1..]));
    }
  }

  lemma DigitsHaveNoSlash(digits: string)
    requires AllDigits(digits)
    ensures '/' !in digits
  {
  }

  /** A collection and a number after the leading slash. */
  lemma ShortPath(path: string, prefix: string, collection: string, digits: string)
    requires prefix == "/" + collection + "/" && '/' !in collection && AllDigits(digits)
    ensures Split(path) == ["", collection, digits] <==> path == prefix + digits
  {
    var parts := ["", collection, digits];
    ThreeParts("", collection, digits);
    assert "" + "/" + (collection + "/" + digits) == prefix + digits;
    DigitsHaveNoSlash(digits);
    SlashedIsSplit(parts);
    SplitIsSlashed(path);
  }

  lemma ThreeParts(a: string, b: string, c: string)
    ensures Slashed([a, b, c]) == a + "/" + (b + "/" + c)
  {
    assert [a, b, c][1..] == [b, c] && [b, c][1..] == [c];
    assert Slashed([b, c]) == b + "/" + Slashed([c]);
  }

  lemma SixParts(a: string, b: string, c: string, d: string, e: string, f: string)
    ensures Slashed([a, b, c, d, e, f]) == a + "/" + (b + "/" + (c + "/" + Slashed([d, e, f])))
  {
    assert [a, b, c, d, e, f][1..] == [b, c, d, e, f] && [b, c, d, e, f][1..] == [c, d, e, f];
    assert [c, d, e, f][1..] == [d, e, f];
    assert Slashed([c, d, e, f]) == c + "/" + Slashed([d, e, f]);
    assert Slashed([b, c, d, e, f]) == b + "/" + Slashed([c, d, e, f]);
  }

  lemma CellPathParts(path: string, d: string, e: string, f: string)
    requires AllDigits(d) && AllDigits(e) && AllDigits(f)
    ensures Split(path) == ["", "tables", d, "rows", e, f] <==> path == CellText(d, e, f)
  {
    SixParts("", "tables", d, "rows", e, f);
    ThreeParts("rows", e, f);
    CellTextIs(d, e, f);
    DigitsHaveNoSlash(d);
    DigitsHaveNoSlash(e);
    DigitsHaveNoSlash(f);
    SlashedIsSplit(["", "tables", d, "rows", e, f]);
    SplitIsSlashed(path);
  }

  lemma CellTextIs(d: string, e: string, f: string)
    ensures "" + "/" + ("tables" + "/" + (d + "/" + ("rows" + "/" + (e + "/" + f)))) == CellText(d, e, f)
  {
    var tail := e + "/" + f;
    assert "rows" + "/" + tail == "rows/" + tail;
    assert d + "/" + ("rows/" + tail) == d + "/rows/" + tail;
    assert "" + "/" + ("tables" + "/" + (d + "/rows/" + tail)) == "/tables/" + (d + "/rows/" + tail);
    assert "/tables/" + (d + "/rows/" + tail) == "/tables/" + d + "/rows/" + e + "/" + f;
  }

  // ---------- paths of a presentation ----------

  function Collection(p: Position): string
    requires IsObservation(p)
  {
    match p case FieldAt(_) => "fields" case TableAt(_) => "tables" case BlockAt(_) => "text_blocks"
  }

  lemma PrefixIs(p: Position)
    requires IsObservation(p)
    ensures Prefix(p) == "/" + Collection(p) + "/" && '/' !in Collection(p)
  {
  }

  /** The path consists of nothing, a collection, and a number. */
  predicate Parts(parts: seq<string>, collection: string, n: nat) {
    |parts| == 3 && parts[0] == "" && parts[1] == collection && Reads(parts[2], n)
  }

  lemma ShortPathNames(path: string, p: Position)
    requires IsObservation(p)
    ensures Addresses(path, p) <==> Parts(Split(path), Collection(p), Index(p))
  {
    PrefixIs(p);
    PartsOf(path, Prefix(p), Collection(p), Index(p));
  }

  lemma PartsOf(path: string, prefix: string, collection: string, n: nat)
    requires prefix == "/" + collection + "/" && '/' !in collection
    ensures (exists d :: Reads(d, n) && path == prefix + d) <==> Parts(Split(path), collection, n)
  {
    if d :| Reads(d, n) && path == prefix + d {
      ShortPath(path, prefix, collection, d);
    }
    var parts := Split(path);
    if Parts(parts, collection, n) {
      assert parts == ["", collection, parts[2]];
      ShortPath(path, prefix, collection, parts[2]);
    }
  }

  /** A drafted path lists the observation it is written for, and a path written for none lists nothing. */
  lemma PresentationPathsAreExact(doc: Document, path: string)
    ensures forall p :: Has(doc, p) && IsObservation(p) && Addresses(path, p) ==>
                          PresentationTarget(doc, path) == Some(IdAt(doc, p))
    ensures PresentationTarget(doc, path).Some? ==>
              exists p :: Has(doc, p) && IsObservation(p) && Addresses(path, p)
  {
    forall p | Has(doc, p) && IsObservation(p) && Addresses(path, p)
      ensures PresentationTarget(doc, path) == Some(IdAt(doc, p))
    {
      ShortPathNames(path, p);
    }
    if PresentationTarget(doc, path).Some? {
      var parts := Split(path);
      var i := Parse(parts[2]);
      var p := if parts[1] == "fields" then FieldAt(i) else if parts[1] == "tables" then TableAt(i) else BlockAt(i);
      ShortPathNames(path, p);
      assert Has(doc, p) && IsObservation(p) && Addresses(path, p);
    }
  }

  // ---------- paths of a quality issue ----------

  lemma CellPathNames(path: string, t: nat, r: nat, c: nat)
    ensures Addresses(path, CellAt(t, r, c)) <==>
              var parts := Split(path);
              && |parts| == 6 && parts[0] == "" && parts[1] == "tables" && parts[3] == "rows"
              && Reads(parts[2], t) && Reads(parts[4], r) && Reads(parts[5], c)
  {
    if Addresses(path, CellAt(t, r, c)) {
      var d, e, f :| Reads(d, t) && Reads(e, r) && Reads(f, c) && path == CellText(d, e, f);
      CellPathParts(path, d, e, f);
    }
    var parts := Split(path);
    if |parts| == 6 && parts[0] == "" && parts[1] == "tables" && parts[3] == "rows"
       && Reads(parts[2], t) && Reads(parts[4], r) && Reads(parts[5], c) {
      assert parts == ["", "tables", parts[2], "rows", parts[4], parts[5]];
      CellPathParts(path, parts[2], parts[4], parts[5]);
    }
  }

  /** A path of a quality issue names exactly the value it is written for, if the document has it. */
  lemma ValuePathsAreExact(doc: Document, path: string, p: Position)
    ensures TargetPosition(doc, path) == Some(p) <==> Has(doc, p) && IsValue(p) && Addresses(path, p)
  {
    match p
    case FieldAt(_) => ShortPathNames(path, p);
    case BlockAt(_) => ShortPathNames(path, p);
    case CellAt(t, r, c) => CellPathNames(path, t, r, c);
    case _ =>
  }

  // ---------- the paths the detectors write ----------

  /** The detectors write paths with the plain numeral of each index. */
  lemma WrittenPathsAddress(p: Position)
    requires IsValue(p)
    ensures Addresses(PathOf(p), p)
    ensures p.FieldAt? ==> PathOf(p) == "/fields/" + Render(p.i)
    ensures p.BlockAt? ==> PathOf(p) == "/text_blocks/" + Render(p.i)
    ensures p.CellAt? ==> PathOf(p) == CellText(Render(p.t), Render(p.r), Render(p.c))
  {
    match p
    case FieldAt(i) => ShortPathWritten(p, "fields");
    case BlockAt(i) => ShortPathWritten(p, "text_blocks");
    case CellAt(t, r, c) =>
      FiveTokens(t, r, c);
      CellPathParts(PathOf(p), Render(t), Render(r), Render(c));
      CellPathNames(PathOf(p), t, r, c);
  }

  lemma ShortPathWritten(p: Position, collection: string)
    requires IsObservation(p) && collection == Collection(p)
    ensures var path := Pointer([collection, Render(Index(p))]);
            Addresses(path, p) && path == Prefix(p) + Render(Index(p))
  {
    PrefixIs(p);
    TwoTokens(collection, Index(p));
    ShortPath(Pointer([collection, Render(Index(p))]), Prefix(p), collection, Render(Index(p)));
  }
}
