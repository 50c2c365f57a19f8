/** What normalization does to a text, stated without its passes: what breaks a line, what is replaced, what is kept. */
module NormalizationTheorems {
  import opened TextNormalization

  // ---------- literal line breaks ----------

  /** No literal sequence runs across the seam of the two texts. */
  predicate CleanSeam(a: string, b: string) {
    && !(a != "" && a[|a| - 1] == '\\' && b != "" && (b[0] == 'n' || b[0] == 'r'))
    && !(EndsInReturn(a) && StartsWithFeed(b))
  }

  /** The text ends with a literal backslash-r. */
  predicate EndsInReturn(s: string) {
    2 <= |s| && s[|s| - 2] == '\\' && s[|s| - 1] == 'r'
  }

  /** The text starts with a literal backslash-n. */
  predicate StartsWithFeed(s: string) {
    2 <= |s| && s[0] == '\\' && s[1] == 'n'
  }

  lemma SeamOfSuffix(a: string, b: string, k: nat)
    requires CleanSeam(a, b) && k <= |a|
    ensures CleanSeam(a[k..], b)
  {
  }

  /** Over a clean seam, both texts start alike. */
  lemma SameStart(a: string, b: string, s: string)
    requires CleanSeam(a, b) && a != "" && s == a + b
    ensures EscapeLength(s) == EscapeLength(a)
  {
    if |a| == 1 {
      assert |s| >= 2 ==> s[1] == b[0];
    } else {
      assert s[0] == a[0] && s[1] == a[1];
      if |a| == 2 {
        assert |s| >= 4 ==> s[2] == b[0] && s[3] == b[1];
      } else {
        assert s[2] == a[2];
        assert |s| >= 4 ==> s[3] == if |a| == 3 then b[0] else a[3];
      }
    }
  }

  lemma {:induction false} UnescapeSplits(a: string, b: string, s: string)
    requires CleanSeam(a, b) && s == a + b
    ensures Unescape(s) == Unescape(a) + Unescape(b)
  {
    if a == "" {
      assert s == b;
    } else {
      SameStart(a, b, s);
      var k := if EscapeLength(a) > 0 then EscapeLength(a) else 1;
      SeamOfSuffix(a, b, k);
      UnescapeSplits(a[k..], b, s[k..]);
      FirstStep(a, b, s, k);
    }
  }

  lemma FirstStep(a: string, b: string, s: string, k: nat)
    requires a != "" && s == a + b && EscapeLength(s) == EscapeLength(a)
    requires k == (if EscapeLength(a) > 0 then EscapeLength(a) else 1)
    requires Unescape(s[k..]) == Unescape(a[k..]) + Unescape(b)
    ensures Unescape(s) == Unescape(a) + Unescape(b)
  {
    var head := if EscapeLength(a) > 0 then '\n' else a[0];
    assert Unescape(a) == [head] + Unescape(a[k..]);
    assert Unescape(s) == [head] + Unescape(s[k..]);
    Prefixed((t: string) => Unescape(t), a, b, s, k, head);
  }

  lemma Prefixed(f: string -> string, a: string, b: string, s: string, k: nat, head: char)
    requires k <= |a| && s == a + b
    requires f(a) == [head] + f(a[k..]) && f(s) == [head] + f(s[k..]) && f(s[k..]) == f(a[k..]) + f(b)
    ensures f(s) == f(a) + f(b)
  {
  }

  lemma ScrubAllSplits(a: string, b: string)
    ensures ScrubAll(a + b) == ScrubAll(a) + ScrubAll(b)
  {
  }

  /**
   Each literal sequence is a line break, wherever it stands: only a backslash-n right after a literal backslash-r does
   not count again, the two together being one sequence.
   */
  lemma EscapesBreakLines(a: string, e: string, b: string)
    requires e == "\\r\\n" || e == "\\n" || e == "\\r"
    requires e == "\\n" ==> !EndsInReturn(a)
    requires e == "\\r" ==> !StartsWithFeed(b)
    ensures Normalize(a + e + b) == Normalize(a + "\n" + b)
  {
    assert EscapeLength(e + b) == |e| && (e + b)[|e|..] == b;
    assert EscapeLength("\n" + b) == 0 && ("\n" + b)[1..] == b;
    UnescapeSplits(a, e + b, a + e + b);
    UnescapeSplits(a, "\n" + b, a + "\n" + b);
  }

  /** A lone backslash, and any other character, stays what it is. */
  lemma OrdinaryCharactersStay(a: string, c: char, b: string)
    requires c != '\\' && c != 'n' && c != 'r'
    ensures Unescape(a + [c] + b) == Unescape(a) + [c] + Unescape(b)
  {
    assert ([c] + b)[1..] == b;
    UnescapeSplits(a, [c] + b, a + [c] + b);
  }

  // ---------- control characters ----------

  /** C1 controls read as hyphens, and all other controls but tab and the line breaks as blanks. */
  lemma ControlsAreReplaced(a: string, c: char, b: string)
    ensures '\U{80}' <= c <= '\U{9F}' ==> Normalize(a + [c] + b) == Normalize(a + "-" + b)
    ensures c == '\U{7F}' || (c < '\U{20}' && c != '\t' && c != '\n' && c != '\r') ==>
              Normalize(a + [c] + b) == Normalize(a + " " + b)
  {
    if IsC1Control(c) {
      ScrubbedAlike(a, c, '-', b);
    } else if IsC0Control(c) {
      ScrubbedAlike(a, c, ' ', b);
    }
  }

  lemma ScrubbedAlike(a: string, c: char, d: char, b: string)
    requires Scrub(c) == Scrub(d) && c !in "\\nr" && d !in "\\nr"
    ensures Normalize(a + [c] + b) == Normalize(a + [d] + b)
  {
    OrdinaryCharactersStay(a, c, b);
    OrdinaryCharactersStay(a, d, b);
    ScrubbedSame(Unescape(a) + [c] + Unescape(b), Unescape(a) + [d] + Unescape(b));
  }

  lemma ScrubbedSame(s: string, t: string)
    requires |s| == |t| && forall i :: 0 <= i < |s| ==> Scrub(s[i]) == Scrub(t[i])
    ensures ScrubAll(s) == ScrubAll(t)
  {
  }

  // ---------- content ----------

  /** What each character of a text contributes, in order. */
  function Collect(f: char -> string, s: string): string {
    if s == "" then "" else f(s[0]) + Collect(f, s[1..])
  }

  /** What is left of a text without its white space. */
  function Ink(s: string): string {
    Collect(Inked, s)
  }

  function Inked(c: char): string {
    if IsSpace(c) then "" else [c]
  }

  /** What one character of a text leaves to be read. */
  function Legible(c: char): string {
    if '\U{80}' <= c <= '\U{9F}' then "-"
    else if c < '\U{20}' || c == '\U{7F}' || IsSpace(c) then ""
    else [c]
  }

  /** What there is to read in a text: literal line breaks, controls and white space are nothing. */
  function Content(s: string): string {
    if s == "" then ""
    else if s[0] == '\\' && 2 <= |s| && (s[1] == 'n' || s[1] == 'r') then Content(s[2..])
    else Legible(s[0]) + Content(s[1..])
  }

  lemma {:induction false} CollectSplits(f: char -> string, a: string, b: string, s: string)
    requires s == a + b
    ensures Collect(f, s) == Collect(f, a) + Collect(f, b)
  {
    if a == "" {
      assert s == b;
    } else {
      CollectSplits(f, a[1..], b, s[1..]);
    }
  }

  lemma {:induction false} NothingCollected(f: char -> string, s: string)
    requires forall i :: 0 <= i < |s| ==> f(s[i]) == ""
    ensures Collect(f, s) == ""
  {
    if s != "" {
      assert forall i :: 0 <= i < |s| - 1 ==> s[1..][i] == s[i + 1];
      NothingCollected(f, s[1..]);
    }
  }

  lemma SpaceHasNoInk(s: string)
    requires AllSpace(s)
    ensures Ink(s) == ""
  {
    NothingCollected(Inked, s);
  }

  lemma GapHasNoInk(before: string, gap: string, after: string, upTo: string, s: string)
    requires AllSpace(gap) && upTo == before + gap && s == upTo + after
    ensures Ink(s) == Ink(before) + Ink(after)
  {
    SpaceHasNoInk(gap);
    CollectSplits(Inked, before, gap, upTo);
    CollectSplits(Inked, upTo, after, s);
  }

  lemma StripKeepsInk(s: string)
    ensures Ink(Strip(s)) == Ink(s)
  {
    var i, j := StripIsSubstring(s);
    GapHasNoInk("", s[..i], s[i..j], s[..i], s[..j]);
    GapHasNoInk(s[..j], s[j..], "", s, s);
  }

  lemma {:induction false} LinesKeepInk(s: string)
    ensures Ink(Join(StripAll(SplitLines(s)))) == Ink(s)
    decreases |s|
  {
    if s != "" {
      var k := FirstBreak(s);
      StripKeepsInk(s[..k]);
      if k == |s| {
        JoinedInk(s, []);
        assert [s] + [] == [s] && s[..k] == s;
      } else {
        var n := BreakLength(s, k);
        SplitOnce(s, k, n);
        LinesKeepInk(s[k + n..]);
        JoinedInk(s[..k], SplitLines(s[k + n..]));
        BreakHasNoInk(s, k, n);
      }
    }
  }

  lemma BreakHasNoInk(s: string, k: nat, n: nat)
    requires s != "" && k == FirstBreak(s) && k < |s| && n == BreakLength(s, k)
    ensures Ink(s) == Ink(s[..k]) + Ink(s[k + n..])
  {
    BreakIsSpace(s, k, n);
    GapHasNoInk(s[..k], s[k..k + n], s[k + n..], s[..k + n], s);
  }

  lemma BreakIsSpace(s: string, k: nat, n: nat)
    requires s != "" && k == FirstBreak(s) && k < |s| && n == BreakLength(s, k)
    ensures AllSpace(s[k..k + n])
  {
    FirstBreakIsFirst(s);
    assert IsSpace('\n');
    assert IsLineBreak(s[k]) ==> IsSpace(s[k]);
  }

  lemma JoinedFirst(line: string, rest: seq<string>)
    ensures Join(StripAll([line] + rest))
              == if rest == [] then Strip(line) else Strip(line) + "\n" + Join(StripAll(rest))
  {
    PrependLine(line, rest);
    PrependLine(Strip(line), StripAll(rest));
    if rest == [] {
      assert [Strip(line)] + StripAll(rest) == [Strip(line)];
    }
  }

  lemma JoinedInk(line: string, rest: seq<string>)
    ensures Ink(Join(StripAll([line] + rest))) == Ink(Strip(line)) + Ink(Join(StripAll(rest)))
  {
    JoinedFirst(line, rest);
    if rest != [] {
      var t, u := Strip(line), Join(StripAll(rest));
      GapHasNoInk(t, "\n", u, t + "\n", t + "\n" + u);
    }
  }

  lemma {:induction false} PassesKeepContent(s: string)
    ensures Ink(ScrubAll(Unescape(s))) == Content(s)
  {
    if s == "" {
    } else if EscapeLength(s) > 0 {
      var k := EscapeLength(s);
      PassesKeepContent(s[k..]);
      InkOfFirst('\n', Unescape(s[k..]));
      assert k == 4 ==> s[2..][2..] == s[4..];
    } else {
      PassesKeepContent(s[1..]);
      InkOfFirst(s[0], Unescape(s[1..]));
    }
  }

  lemma InkOfFirst(c: char, rest: string)
    ensures Ink(ScrubAll([c] + rest)) == Legible(c) + Ink(ScrubAll(rest))
  {
    ScrubAllSplits([c], rest);
    assert ScrubAll([c]) == [Scrub(c)];
    assert ([Scrub(c)] + ScrubAll(rest))[1..] == ScrubAll(rest);
  }

  /** Normalization keeps everything there is to read, in order, and adds nothing. */
  lemma ContentIsKept(s: string)
    ensures Ink(Normalize(s)) == Content(s)
  {
    PassesKeepContent(s);
    var t := ScrubAll(Unescape(s));
    LinesKeepInk(t);
    StripKeepsInk(Join(StripAll(SplitLines(t))));
  }

  // ---------- lines ----------

  /** `t` is `s` without the white space at its ends. */
  ghost predicate IsTrimmed(s: string, t: string) {
    && TrimmedEnds(t)
    && exists i, j :: 0 <= i <= j <= |s| && t == s[i..j] && AllSpace(s[..i]) && AllSpace(s[j..])
  }

  /** Neither a control character nor a line break. */
  predicate InLine(c: char) {
    c == '\t' || '\U{20}' <= c <= '\U{7E}' || ('\U{A0}' <= c && c != '\U{2028}' && c != '\U{2029}')
  }

  predicate IsLine(line: string) {
    NoEscapes(line) && forall i :: 0 <= i < |line| ==> InLine(line[i])
  }

  predicate IsBreak(s: string) {
    s == "\n" || s == "\r" || s == "\r\n" || s == "\U{2028}" || s == "\U{2029}"
  }

  /** Lines with a break between any two. */
  function Broken(lines: seq<string>, breaks: seq<string>): string
    requires |breaks| + 1 == |lines|
  {
    if breaks == [] then lines[0] else lines[0] + breaks[0] + Broken(lines[1..], breaks[1..])
  }

  /** No carriage return is followed at once by a line feed of its own: that would be one break. */
  predicate Unambiguous(lines: seq<string>, breaks: seq<string>)
    requires |breaks| + 1 == |lines|
  {
    forall i :: 0 <= i < |breaks| - 1 && breaks[i] == "\r" && lines[i + 1] == "" ==> breaks[i + 1] != "\n"
  }

  predicate IsLayout(lines: seq<string>, breaks: seq<string>) {
    && |breaks| + 1 == |lines|
    && (forall i :: 0 <= i < |lines| ==> IsLine(lines[i]))
    && (forall i :: 0 <= i < |breaks| ==> IsBreak(breaks[i]))
    && Unambiguous(lines, breaks)
  }

  lemma TrimmedIsStrip(s: string, t: string)
    requires IsTrimmed(s, t)
    ensures t == Strip(s)
  {
    var i, j :| 0 <= i <= j <= |s| && t == s[i..j] && AllSpace(s[..i]) && AllSpace(s[j..]);
    var k, l := StripIsSubstring(s);
    TrimmedIsWithin(s, i, j, k, l);
    TrimmedIsWithin(s, k, l, i, j);
  }

  lemma TrimmedIsWithin(s: string, i: nat, j: nat, k: nat, l: nat)
    requires i <= j <= |s| && TrimmedEnds(s[i..j]) && k <= l <= |s| && AllSpace(s[..k]) && AllSpace(s[l..])
    ensures i < j ==> k <= i && j <= l
  {
    if i < j {
      assert s[i..j][0] == s[i] && s[i..j][j - i - 1] == s[j - 1];
      NotAround(s, k, l, i);
      NotAround(s, k, l, j - 1);
    }
  }

  lemma NotAround(s: string, i: nat, j: nat, k: nat)
    requires i <= j <= |s| && AllSpace(s[..i]) && AllSpace(s[j..]) && k < |s| && !IsSpace(s[k])
    ensures i <= k < j
  {
    forall q | 0 <= q < i ensures IsSpace(s[q]) {
      assert s[..i][q] == s[q];
    }
    forall q | j <= q < |s| ensures IsSpace(s[q]) {
      assert s[j..][q - j] == s[q];
    }
  }

  lemma LayoutOfRest(lines: seq<string>, breaks: seq<string>)
    requires IsLayout(lines, breaks) && breaks != []
    ensures IsLayout(lines[1..], breaks[1..])
  {
    assert Unambiguous(lines[1..], breaks[1..]) by {
      forall i | 0 <= i < |breaks[1..]| - 1 && breaks[1..][i] == "\r" && lines[1..][i + 1] == ""
        ensures breaks[1..][i + 1] != "\n"
      {
        assert breaks[i + 1] == "\r" && lines[i + 2] == "";
      }
    }
  }

  lemma {:induction false} LayoutIsScrubbed(lines: seq<string>, breaks: seq<string>)
    requires IsLayout(lines, breaks)
    ensures Unescape(Broken(lines, breaks)) == Broken(lines, breaks)
    ensures ScrubAll(Broken(lines, breaks)) == Broken(lines, breaks)
    decreases |breaks|
  {
    LineIsScrubbed(lines[0]);
    if breaks != [] {
      LayoutOfRest(lines, breaks);
      LayoutIsScrubbed(lines[1..], breaks[1..]);
      BreakIsScrubbed(breaks[0]);
      var rest := Broken(lines[1..], breaks[1..]);
      UnescapeSplits(lines[0], breaks[0], lines[0] + breaks[0]);
      UnescapeSplits(lines[0] + breaks[0], rest, lines[0] + breaks[0] + rest);
      ScrubAllSplits(lines[0], breaks[0]);
      ScrubAllSplits(lines[0] + breaks[0], rest);
    }
  }

  lemma LineIsScrubbed(line: string)
    requires IsLine(line)
    ensures Unescape(line) == line && ScrubAll(line) == line
  {
    NothingToUnescape(line);
  }

  lemma BreakIsScrubbed(b: string)
    requires IsBreak(b)
    ensures Unescape(b) == b && ScrubAll(b) == b
  {
    assert forall i :: 0 <= i < |b| ==> b[i] != '\\' && Scrub(b[i]) == b[i];
    NothingToUnescape(b);
  }

  lemma {:induction false} FirstBreakAfter(line: string, rest: string)
    requires forall i :: 0 <= i < |line| ==> InLine(line[i])
    requires rest != "" ==> IsLineBreak(rest[0])
    ensures FirstBreak(line + rest) == |line|
  {
    if line == "" {
      assert line + rest == rest;
    } else {
      FirstBreakAfter(line[1..], rest);
      assert (line + rest)[1..] == line[1..] + rest;
    }
  }

  /** The first line of a layout is split off as it is, with its whole break. */
  lemma FirstLineIsSplitOff(lines: seq<string>, breaks: seq<string>)
    requires IsLayout(lines, breaks) && breaks != []
    ensures SplitLines(Broken(lines, breaks)) == [lines[0]] + SplitLines(Broken(lines[1..], breaks[1..]))
  {
    var line, b, rest := lines[0], breaks[0], Broken(lines[1..], breaks[1..]);
    var s := line + b + rest;
    assert s == line + (b + rest);
    FirstBreakAfter(line, b + rest);
    assert BreakLength(s, |line|) == |b| by {
      assert s[|line|] == b[0];
      if b == "\r" && rest != "" {
        assert s[|line| + 1] == rest[0];
        RestStartsNoLineFeed(lines, breaks);
      } else if b == "\r\n" {
        assert s[|line| + 1] == b[1];
      }
    }
    SplitOnce(s, |line|, |b|);
    assert s[..|line|] == line && s[|line| + |b|..] == rest;
  }

  lemma RestStartsNoLineFeed(lines: seq<string>, breaks: seq<string>)
    requires IsLayout(lines, breaks) && breaks != [] && breaks[0] == "\r"
    requires Broken(lines[1..], breaks[1..]) != ""
    ensures Broken(lines[1..], breaks[1..])[0] != '\n'
  {
    if lines[1] != "" {
      assert InLine(lines[1][0]);
    } else {
      assert IsBreak(breaks[1]) && breaks[1] != "\n";
    }
  }

  function LineFeeds(n: nat): seq<string> {
    seq(n, _ => "\n")
  }

  /** Joining drops at most a final line feed, after which nothing follows. */
  lemma {:induction false} JoinedLines(lines: seq<string>, breaks: seq<string>, trimmed: seq<string>)
    requires IsLayout(lines, breaks) && |trimmed| == |lines|
    requires forall i :: 0 <= i < |lines| ==> trimmed[i] == Strip(lines[i])
    ensures var joined := Join(StripAll(SplitLines(Broken(lines, breaks))));
            var whole := Broken(trimmed, LineFeeds(|breaks|));
            whole == joined || whole == joined + "\n"
    decreases |breaks|
  {
    if breaks == [] {
      OneLine(lines[0]);
    } else {
      LayoutOfRest(lines, breaks);
      JoinedLines(lines[1..], breaks[1..], trimmed[1..]);
      FirstLineIsSplitOff(lines, breaks);
      var rest := SplitLines(Broken(lines[1..], breaks[1..]));
      if rest == [] {
        NothingLeft(lines[1..], breaks[1..], trimmed[1..]);
      }
      JoinedFirst(lines[0], rest);
      FirstTrimmed(trimmed, |breaks|);
      AtMostAFeed(trimmed[0], Join(StripAll(rest)), Broken(trimmed[1..], LineFeeds(|breaks| - 1)), rest == []);
    }
  }

  lemma FirstTrimmed(trimmed: seq<string>, n: nat)
    requires |trimmed| == n + 1 && n > 0
    ensures Broken(trimmed, LineFeeds(n)) == trimmed[0] + "\n" + Broken(trimmed[1..], LineFeeds(n - 1))
  {
    assert LineFeeds(n)[1..] == LineFeeds(n - 1);
  }

  lemma AtMostAFeed(first: string, joined: string, whole: string, empty: bool)
    requires whole == joined || whole == joined + "\n"
    requires empty ==> whole == ""
    ensures var all := if empty then first else first + "\n" + joined;
            first + "\n" + whole == all || first + "\n" + whole == all + "\n"
  {
    assert first + "\n" + (joined + "\n") == first + "\n" + joined + "\n";
    assert first + "\n" + "" == first + "\n";
  }

  lemma OneLine(line: string)
    requires IsLine(line)
    ensures Join(StripAll(SplitLines(line))) == Strip(line)
  {
    FirstBreakAfter(line, "");
    assert line + "" == line;
    if line != "" {
      PrependLine(line, []);
      assert [line] + [] == [line] && [Strip(line)] + [] == [Strip(line)];
    }
  }

  lemma NothingLeft(lines: seq<string>, breaks: seq<string>, trimmed: seq<string>)
    requires IsLayout(lines, breaks) && |trimmed| == |lines| && trimmed[0] == Strip(lines[0])
    requires SplitLines(Broken(lines, breaks)) == []
    ensures breaks == [] && trimmed[0] == "" && Broken(trimmed, LineFeeds(|breaks|)) == ""
  {
    assert Broken(lines, breaks) == "";
    assert breaks != [] ==> IsBreak(breaks[0]);
  }

  /**
   The lines of the output are the trimmed lines of the text, whichever breaks separate them, CR LF being one; blank
   lines at either end go with the white space around the whole.
   */
  lemma LinesAreTrimmed(lines: seq<string>, breaks: seq<string>, trimmed: seq<string>)
    requires IsLayout(lines, breaks) && |trimmed| == |lines|
    requires forall i :: 0 <= i < |lines| ==> IsTrimmed(lines[i], trimmed[i])
    ensures IsTrimmed(Broken(trimmed, LineFeeds(|breaks|)), Normalize(Broken(lines, breaks)))
  {
    forall i | 0 <= i < |lines| ensures trimmed[i] == Strip(lines[i]) {
      TrimmedIsStrip(lines[i], trimmed[i]);
    }
    LayoutIsScrubbed(lines, breaks);
    JoinedLines(lines, breaks, trimmed);
    var joined := Join(StripAll(SplitLines(Broken(lines, breaks))));
    var whole := Broken(trimmed, LineFeeds(|breaks|));
    TrimmedWithFeed(joined, whole);
  }

  lemma TrimmedWithFeed(joined: string, whole: string)
    requires whole == joined || whole == joined + "\n"
    ensures IsTrimmed(whole, Strip(joined))
  {
    var i, j := StripIsSubstring(joined);
    assert whole[i..j] == joined[i..j] && whole[..i] == joined[..i];
    assert AllSpace(whole[j..]) by {
      assert whole[j..] == joined[j..] || whole[j..] == joined[j..] + "\n";
    }
  }
}
