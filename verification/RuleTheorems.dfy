/** The rules about single texts, in the words of the patterns they implement. */
module RuleTheorems {
  import opened TextNormalization
  import opened NormalizationTheorems
  import opened Decimal
  import opened TextRules

  // ---------- page numbers and notices ----------

  predicate Digits(s: string) {
    s != "" && AllDigits(s)
  }

  /** The digits at the start of a text are all of them. */
  lemma {:induction false} DigitsBefore(n: string, rest: string, s: string)
    requires AllDigits(n) && s == n + rest && (rest != "" ==> !IsDigit(rest[0]))
    ensures LeadingDigits(s) == |n|
  {
    if n == "" {
      assert s == rest;
    } else {
      assert s[0] == n[0];
      DigitsBefore(n[1..], rest, s[1..]);
    }
  }

  ghost predicate IsPage(s: string) {
    || (exists n :: Digits(n) && s == "page " + n)
    || (exists n, m :: Digits(n) && Digits(m) && s == "page " + n + " of " + m)
  }

  /** Page numbers are the word and a number, perhaps out of another number, and nothing else. */
  lemma PageNumbersExactly(s: string)
    ensures IsPageNumber(s) <==> IsPage(s)
  {
    if IsPageNumber(s) {
      PageNumberParts(s);
    }
    if n :| Digits(n) && s == "page " + n {
      assert s[5..] == n;
      DigitsBefore(n, "", n);
    }
    if n, m :| Digits(n) && Digits(m) && s == "page " + n + " of " + m {
      PagePartsAreNumber(n, m, s);
    }
  }

  lemma PageNumberParts(s: string)
    requires IsPageNumber(s)
    ensures IsPage(s)
  {
    var rest := s[5..];
    var k := LeadingDigits(rest);
    var n, tail := rest[..k], rest[k..];
    assert Digits(n);
    if k == |rest| {
      assert s == "page " + n;
    } else {
      var m := rest[k + 4..];
      assert tail[..4] == " of " && tail[4..] == m && Digits(m);
      PageText(s, n, tail, m);
      assert s == "page " + n + " of " + m;
    }
  }

  lemma PageText(s: string, n: string, tail: string, m: string)
    requires "page " <= s && s[5..] == n + tail && " of " <= tail && tail[4..] == m
    ensures s == "page " + n + " of " + m
  {
    assert s == "page " + s[5..] && tail == " of " + m;
  }

  lemma PagePartsAreNumber(n: string, m: string, s: string)
    requires Digits(n) && Digits(m) && s == "page " + n + " of " + m
    ensures IsPageNumber(s)
  {
    var rest := n + (" of " + m);
    assert s[5..] == rest;
    DigitsBefore(n, " of " + m, rest);
    assert rest[|n|..] == " of " + m && rest[|n| + 4..] == m;
  }

  /** A notice with a chosen article, hyphen, article and full stop. */
  function Notice(a: bool, hyphen: bool, b: bool, stop: bool): string {
    "this is " + (Article(a) + ("computer" + (Link(hyphen) + Statement(b, stop))))
  }

  function Article(a: bool): string {
    if a then "a " else ""
  }

  function Link(hyphen: bool): string {
    if hyphen then "-" else " "
  }

  function Statement(b: bool, stop: bool): string {
    "generated statement and does not require " + (Article(b) + Ending(stop))
  }

  function Ending(stop: bool): string {
    if stop then "signature." else "signature"
  }

  lemma OptionalArticle(s: string) returns (a: bool)
    ensures s == Article(a) + Skip(s, "a ")
  {
    a := "a " <= s;
  }

  lemma ArticleIsSkipped(a: bool, rest: string)
    requires rest != "" && rest[0] != 'a'
    ensures Skip(Article(a) + rest, "a ") == rest
  {
    assert Article(false) + rest == rest;
  }

  /** The generated notices are these sixteen texts. */
  lemma NoticesExactly(s: string)
    ensures IsGeneratedNotice(s) <==> exists a, hyphen, b, stop :: s == Notice(a, hyphen, b, stop)
  {
    if IsGeneratedNotice(s) {
      var first := s[8..];
      var second := Skip(first, "a ");
      var a := OptionalArticle(first);
      var hyphen, b, stop := StatementParts(second);
      assert s == "this is " + first;
      assert s == Notice(a, hyphen, b, stop);
    }
    if a, hyphen, b, stop :| s == Notice(a, hyphen, b, stop) {
      NoticeIsGenerated(a, hyphen, b, stop);
    }
  }

  predicate IsStatement(s: string) {
    && "generated statement and does not require " <= s
    && Skip(s[41..], "a ") in {Ending(true), Ending(false)}
  }

  lemma StatementParts(s: string) returns (hyphen: bool, b: bool, stop: bool)
    requires "computer" <= s && |s| > 8 && (s[8] == '-' || s[8] == ' ') && IsStatement(s[9..])
    ensures s == "computer" + (Link(hyphen) + Statement(b, stop))
  {
    hyphen := s[8] == '-';
    b, stop := StatementEnd(s[9..]);
    LinkedParts(s, hyphen, s[9..]);
  }

  lemma LinkedParts(s: string, hyphen: bool, rest: string)
    requires "computer" <= s && |s| > 8 && (s[8] == '-' || s[8] == ' ') && hyphen == (s[8] == '-') && rest == s[9..]
    ensures s == "computer" + (Link(hyphen) + rest)
  {
  }

  lemma StatementEnd(s: string) returns (b: bool, stop: bool)
    requires IsStatement(s)
    ensures s == Statement(b, stop)
  {
    var tail := s[41..];
    b := OptionalArticle(tail);
    stop := Skip(tail, "a ") == Ending(true);
    assert tail == Article(b) + Ending(stop);
  }

  lemma NoticeIsGenerated(a: bool, hyphen: bool, b: bool, stop: bool)
    ensures IsGeneratedNotice(Notice(a, hyphen, b, stop))
  {
    var third := Statement(b, stop);
    var second := "computer" + (Link(hyphen) + third);
    SecondPart(second, hyphen, third);
    ArticleIsSkipped(a, second);
    StatementIsOne(b, stop);
    NoticeOf(Notice(a, hyphen, b, stop), Article(a) + second, second);
  }

  lemma SecondPart(second: string, hyphen: bool, third: string)
    requires second == "computer" + (Link(hyphen) + third)
    ensures "computer" <= second && second[0] == 'c' && |second| > 8 && second[9..] == third
    ensures second[8] == '-' || second[8] == ' '
  {
    assert second[8] == Link(hyphen)[0];
  }

  lemma StatementIsOne(b: bool, stop: bool)
    ensures IsStatement(Statement(b, stop))
  {
    ArticleIsSkipped(b, Ending(stop));
    assert Statement(b, stop)[41..] == Article(b) + Ending(stop);
  }

  lemma NoticeOf(s: string, first: string, second: string)
    requires s == "this is " + first && Skip(first, "a ") == second
    requires "computer" <= second && |second| > 8 && (second[8] == '-' || second[8] == ' ') && IsStatement(second[9..])
    ensures IsGeneratedNotice(s)
  {
    assert s[8..] == first;
  }

  // ---------- words ----------

  predicate IsWord(s: string) {
    s != "" && forall i :: 0 <= i < |s| ==> !IsSpace(s[i])
  }

  lemma {:induction false} WordEnds(word: string, rest: string, s: string)
    requires (forall i :: 0 <= i < |word| ==> !IsSpace(word[i])) && s == word + rest
    requires rest != "" ==> IsSpace(rest[0])
    ensures WordLength(s) == |word|
  {
    if word != "" {
      assert s[0] == word[0];
      WordEnds(word[1..], rest, s[1..]);
    }
  }

  /** White space ends a word, and any amount of it is one gap. */
  lemma WordsAreSplit(word: string, space: char, rest: string)
    requires IsWord(word) && IsSpace(space)
    ensures Words(word + [space] + rest) == [word] + Words(rest)
    ensures Words([space] + rest) == Words(rest) && Words(word) == [word] && Words("") == []
  {
    var s := word + [space] + rest;
    assert s == word + ([space] + rest) && s[0] == word[0];
    WordEnds(word, [space] + rest, s);
    assert s[..|word|] == word && s[|word|..] == [space] + rest && ([space] + rest)[1..] == rest;
    assert word == word + "";
    WordEnds(word, "", word);
    assert word[..|word|] == word && word[|word|..] == "";
  }

  /** Joining words with single blanks and splitting again gives the same words. */
  lemma {:induction false} SpacedWordsAreKept(words: seq<string>)
    requires forall i :: 0 <= i < |words| ==> IsWord(words[i])
    ensures Words(Spaced(words)) == words
    ensures forall i :: 0 <= i < |Spaced(words)| && IsSpace(Spaced(words)[i]) ==> Spaced(words)[i] == ' '
  {
    if words == [] {
    } else if |words| == 1 {
      WordsAreSplit(words[0], ' ', "");
    } else {
      SpacedWordsAreKept(words[1..]);
      WordsAreSplit(words[0], ' ', Spaced(words[1..]));
      assert Spaced(words) == words[0] + [' '] + Spaced(words[1..]);
      assert words == [words[0]] + words[1..];
    }
  }

  lemma {:induction false} WordsAreWords(s: string)
    ensures forall i :: 0 <= i < |Words(s)| ==> IsWord(Words(s)[i])
    decreases |s|
  {
    if s == "" {
    } else if IsSpace(s[0]) {
      WordsAreWords(s[1..]);
    } else {
      WordIsFree(s);
      WordsAreWords(s[WordLength(s)..]);
    }
  }

  lemma {:induction false} WordIsFree(s: string)
    ensures forall i :: 0 <= i < WordLength(s) ==> !IsSpace(s[i])
  {
    if s != "" && !IsSpace(s[0]) {
      WordIsFree(s[1..]);
      forall i | 0 <= i < WordLength(s) ensures !IsSpace(s[i]) {
        if i > 0 {
          assert s[i] == s[1..][i - 1];
        }
      }
    }
  }

  lemma {:induction false} ContainsExactly(s: string, part: string)
    ensures Contains(s, part) <==> exists before, behind :: s == before + part + behind
  {
    if part <= s {
      assert s == "" + part + s[|part|..];
    } else if s != "" {
      ContainsExactly(s[1..], part);
      if before, behind :| s == before + part + behind {
        assert "" + part + behind == part + behind;
        assert s[1..] == before[1..] + part + behind;
      }
      if before, behind :| s[1..] == before + part + behind {
        assert s == ([s[0]] + before) + part + behind;
      }
    }
  }

  // ---------- lines ----------

  /** Only lines with something left of them count, without the white space around them, in order. */
  lemma {:induction false} NonBlankLinesJoin(a: seq<string>, b: seq<string>, all: seq<string>)
    requires all == a + b
    ensures NonBlankLines(all) == NonBlankLines(a) + NonBlankLines(b)
  {
    if a == [] {
      assert all == b;
    } else {
      NonBlankLinesJoin(a[1..], b, all[1..]);
    }
  }

  lemma OneLineCounts(line: string)
    ensures NonBlankLines([line]) == if Strip(line) == "" then [] else [Strip(line)]
  {
    assert [line][1..] == [];
  }

  // ---------- the rules ----------

  ghost predicate Has(s: string, part: string) {
    exists before, behind :: s == before + part + behind
  }

  /** At most three lines with text, the first in capitals and one of them saying that something is continued. */
  ghost predicate SaysContinued(u: Unicode, lines: seq<string>) {
    && 1 <= |lines| <= 3 && u.isUpper(lines[0])
    && exists i :: 0 <= i < |lines| && Has(u.casefold(lines[i]), "continued")
  }

  /**
   A text is boilerplate when nothing is left of it, or when, folded to words with single blanks, it is a test notice, a
   generated notice or a page number, or when its lines say that something is continued.
   */
  lemma BoilerplateExactly(u: Unicode, v: string)
    ensures var text := Normalize(v);
            var folded := Spaced(Words(u.casefold(text)));
            Boilerplate(PythonRules(u), v) <==>
              || text == "" || folded == ""
              || ("synthetic test document" <= folded && Has(folded, "not for accounting use"))
              || (exists a, hyphen, b, stop :: folded == Notice(a, hyphen, b, stop))
              || IsPage(folded)
              || SaysContinued(u, NonBlankLines(SplitLines(text)))
  {
    var text := Normalize(v);
    FoldedExactly(Spaced(Words(u.casefold(text))));
    ContinuedExactly(u, NonBlankLines(SplitLines(text)));
  }

  lemma FoldedExactly(folded: string)
    ensures Contains(folded, "not for accounting use") <==> Has(folded, "not for accounting use")
    ensures IsGeneratedNotice(folded) <==> exists a, hyphen, b, stop :: folded == Notice(a, hyphen, b, stop)
    ensures IsPageNumber(folded) <==> IsPage(folded)
  {
    ContainsExactly(folded, "not for accounting use");
    NoticesExactly(folded);
    PageNumbersExactly(folded);
  }

  lemma ContinuedExactly(u: Unicode, lines: seq<string>)
    ensures IsContinuation(u, lines) <==> SaysContinued(u, lines)
  {
    forall i | 0 <= i < |lines|
      ensures Contains(u.casefold(lines[i]), "continued") <==> Has(u.casefold(lines[i]), "continued")
    {
      ContainsExactly(u.casefold(lines[i]), "continued");
    }
  }

  lemma {:induction false} CompactIsInk(s: string)
    ensures Compact(s) == Ink(s)
  {
    if s != "" {
      CompactIsInk(s[1..]);
    }
  }

  /** What is left of a text without the characters that do not satisfy a predicate. */
  function Selected(s: string, holds: char -> bool): string {
    Collect((c: char) => if holds(c) then [c] else "", s)
  }

  lemma {:induction false} CountIsSelected(s: string, holds: char -> bool)
    ensures CountOf(s, holds) == |Selected(s, holds)|
  {
    if s != "" {
      CountIsSelected(s[1..], holds);
    }
  }

  /**
   A text is suspicious when it has a replacement character or a control other than tab and the line breaks, or when
   less than a fifth of five or more visible characters are letters or digits.
   */
  lemma SuspiciousExactly(u: Unicode, v: string)
    ensures PythonRules(u).suspicious(v) <==>
              || '\U{FFFD}' in v
              || (exists i :: 0 <= i < |v|
                    && (v[i] == '\U{7F}' || (v[i] < ' ' && v[i] != '\t' && v[i] != '\n' && v[i] != '\r')))
              || (|Ink(v)| >= 5 && |Selected(Ink(v), u.isAlnum)| as real < 0.2 * |Ink(v)| as real)
  {
    CompactIsInk(v);
    CountIsSelected(Compact(v), u.isAlnum);
    forall i | 0 <= i < |v|
      ensures IsC0Control(v[i]) <==>
                v[i] == '\U{7F}' || (v[i] < ' ' && v[i] != '\t' && v[i] != '\n' && v[i] != '\r')
    {
    }
  }

  /** Two fields say the same iff their names and values agree but for case and the white space around them. */
  lemma SameFieldsExactly(u: Unicode, name: string, value: string, other: string, otherValue: string)
    ensures PythonRules(u).identity(name, value) == PythonRules(u).identity(other, otherValue) <==>
              && (exists t :: IsTrimmed(u.casefold(name), t) && IsTrimmed(u.casefold(other), t))
              && (exists t :: IsTrimmed(u.casefold(value), t) && IsTrimmed(u.casefold(otherValue), t))
  {
    SameTrimmed(u.casefold(name), u.casefold(other));
    SameTrimmed(u.casefold(value), u.casefold(otherValue));
  }

  lemma SameTrimmed(a: string, b: string)
    ensures Strip(a) == Strip(b) <==> exists t :: IsTrimmed(a, t) && IsTrimmed(b, t)
  {
    TrimmedWithFeed(a, a);
    TrimmedWithFeed(b, b);
    if t :| IsTrimmed(a, t) && IsTrimmed(b, t) {
      TrimmedIsStrip(a, t);
      TrimmedIsStrip(b, t);
    }
  }
}
