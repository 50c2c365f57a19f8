/**
 `normalize_extracted_text`: literal escapes become line breaks, control characters are replaced, lines are
 trimmed. The main result characterizes its fixed points; idempotence is a corollary.
 */
module TextNormalization {

  // ---------- character classes ----------

  /** What `str.strip()` removes. */
  predicate IsSpace(c: char) {
    || '\U{9}' <= c <= '\U{D}' || '\U{1C}' <= c <= '\U{20}' || c == '\U{85}' || c == '\U{A0}' || c == '\U{1680}'
    || '\U{2000}' <= c <= '\U{200A}' || c == '\U{2028}' || c == '\U{2029}' || c == '\U{202F}' || c == '\U{205F}'
    || c == '\U{3000}'
  }

  /** Where `str.splitlines()` breaks. */
  predicate IsLineBreak(c: char) {
    '\U{A}' <= c <= '\U{D}' || '\U{1C}' <= c <= '\U{1E}' || c == '\U{85}' || c == '\U{2028}' || c == '\U{2029}'
  }

  predicate IsC1Control(c: char) {
    '\U{80}' <= c <= '\U{9F}'
  }

  predicate IsC0Control(c: char) {
    c <= '\U{8}' || c == '\U{B}' || c == '\U{C}' || '\U{E}' <= c <= '\U{1F}' || c == '\U{7F}'
  }

  /** White space inside a line. */
  predicate IsBlank(c: char) {
    IsSpace(c) && c != '\n'
  }

  // ---------- the passes ----------

  /** The length of the literal sequence a text starts with: backslash-r-backslash-n, backslash-n or backslash-r. */
  function EscapeLength(s: string): (k: nat)
    ensures k <= |s|
  {
    if 4 <= |s| && s[0] == '\\' && s[1] == 'r' && s[2] == '\\' && s[3] == 'n' then 4
    else if 2 <= |s| && s[0] == '\\' && (s[1] == 'n' || s[1] == 'r') then 2
    else 0
  }

  /** Literal sequences become line breaks, leftmost and longest first. */
  function Unescape(s: string): string {
    if s == "" then ""
    else if EscapeLength(s) > 0 then "\n" + Unescape(s[EscapeLength(s)..])
    else [s[0]] + Unescape(s[1..])
  }

  function Scrub(c: char): char {
    if IsC1Control(c) then '-' else if IsC0Control(c) then ' ' else c
  }

  function ScrubAll(s: string): string {
    seq(|s|, i requires 0 <= i < |s| => Scrub(s[i]))
  }

  function FirstBreak(s: string): (k: nat)
    ensures k <= |s|
  {
    if s == "" || IsLineBreak(s[0]) then 0 else 1 + FirstBreak(s[1..])
  }

  lemma {:induction false} FirstBreakIsFirst(s: string)
    ensures forall i :: 0 <= i < FirstBreak(s) ==> !IsLineBreak(s[i])
    ensures FirstBreak(s) < |s| ==> IsLineBreak(s[FirstBreak(s)])
  {
    if s != "" && !IsLineBreak(s[0]) {
      FirstBreakIsFirst(s[1..]);
      forall i | 0 <= i < FirstBreak(s) ensures !IsLineBreak(s[i]) {
        if i > 0 {
          assert s[i] == s[1..][i - 1];
        }
      }
    }
  }

  function BreakLength(s: string, k: nat): (n: nat)
    requires k < |s|
    ensures 1 <= n <= 2 && k + n <= |s|
  {
    if s[k] == '\r' && k + 1 < |s| && s[k + 1] == '\n' then 2 else 1
  }

  function SplitLines(s: string): seq<string>
    decreases |s|
  {
    if s == "" then []
    else
      var k := FirstBreak(s);
      if k == |s| then [s] else [s[..k]] + SplitLines(s[k + BreakLength(s, k)..])
  }

  predicate AllSpace(s: string) {
    forall i :: 0 <= i < |s| ==> IsSpace(s[i])
  }

  function StripLeft(s: string): (t: string)
    ensures |t| <= |s|
  {
    if s == "" || !IsSpace(s[0]) then s else StripLeft(s[1..])
  }

  function StripRight(s: string): (t: string)
    ensures |t| <= |s|
  {
    if s == "" || !IsSpace(s[|s| - 1]) then s else StripRight(s[..|s| - 1])
  }

  function Strip(s: string): (t: string)
    ensures |t| <= |s|
  {
    StripRight(StripLeft(s))
  }

  lemma {:induction false} StripLeftIsSuffix(s: string)
    ensures var t := StripLeft(s);
            && t == s[|s| - |t|..]
            && AllSpace(s[..|s| - |t|])
            && (t != "" ==> !IsSpace(t[0]))
  {
    if s != "" && IsSpace(s[0]) {
      StripLeftIsSuffix(s[1..]);
      var t := StripLeft(s);
      assert s[..|s| - |t|] == [s[0]] + s[1..][..|s| - 1 - |t|];
    }
  }

  lemma {:induction false} StripRightIsPrefix(s: string)
    ensures var t := StripRight(s);
            && t == s[..|t|]
            && AllSpace(s[|t|..])
            && (t != "" ==> !IsSpace(t[|t| - 1]))
  {
    if s != "" && IsSpace(s[|s| - 1]) {
      StripRightIsPrefix(s[..|s| - 1]);
      var t := StripRight(s);
      assert s[|t|..] == s[..|s| - 1][|t|..] + [s[|s| - 1]];
    }
  }

  /** Stripping yields the substring whose ends are not white space, with nothing but white space around it. */
  lemma StripIsSubstring(s: string) returns (i: nat, j: nat)
    ensures i <= j <= |s| && Strip(s) == s[i..j] && AllSpace(s[..i]) && AllSpace(s[j..])
    ensures TrimmedEnds(Strip(s))
  {
    var left := StripLeft(s);
    var t := StripRight(left);
    StripLeftIsSuffix(s);
    StripRightIsPrefix(left);
    i, j := |s| - |left|, |s| - |left| + |t|;
    assert t == s[i..j] && s[j..] == left[|t|..];
    if t != "" {
      assert t[0] == left[0];
    }
  }

  lemma TrimmedIsStripped(s: string)
    requires TrimmedEnds(s)
    ensures Strip(s) == s
  {
  }

  function StripAll(lines: seq<string>): (r: seq<string>)
    ensures |r| == |lines|
  {
    if lines == [] then [] else [Strip(lines[0])] + StripAll(lines[1..])
  }

  lemma {:induction false} StripAllStripsEach(lines: seq<string>)
    ensures forall i :: 0 <= i < |lines| ==> StripAll(lines)[i] == Strip(lines[i])
  {
    if lines != [] {
      StripAllStripsEach(lines[1..]);
    }
  }

  function Join(lines: seq<string>): string {
    if lines == [] then "" else if |lines| == 1 then lines[0] else lines[0] + "\n" + Join(lines[1..])
  }

  function Normalize(s: string): string {
    Strip(Join(StripAll(SplitLines(ScrubAll(Unescape(s))))))
  }

  // ---------- what normalized text looks like ----------

  predicate NoEscapes(s: string) {
    forall i :: 0 <= i < |s| - 1 && s[i] == '\\' ==> s[i + 1] != 'n' && s[i + 1] != 'r'
  }

  /** No control character but tab and newline, and newline is the only line break. */
  predicate PlainCharacters(s: string) {
    forall i :: 0 <= i < |s| ==> PlainCharacter(s[i])
  }

  predicate PlainCharacter(c: char) {
    !IsC0Control(c) && !IsC1Control(c) && (IsLineBreak(c) ==> c == '\n')
  }

  /** No white space just before or after a line break. */
  predicate TrimmedInside(s: string) {
    forall i :: 0 <= i < |s| - 1 ==> !(s[i] == '\n' && IsBlank(s[i + 1])) && !(IsBlank(s[i]) && s[i + 1] == '\n')
  }

  predicate TrimmedEnds(s: string) {
    s == "" || (!IsSpace(s[0]) && !IsSpace(s[|s| - 1]))
  }

  predicate Inner(s: string) {
    NoEscapes(s) && PlainCharacters(s) && TrimmedInside(s)
  }

  predicate Normalized(s: string) {
    Inner(s) && TrimmedEnds(s)
  }

  // ---------- the output is normalized ----------

  lemma {:induction false} UnescapeLeavesNoEscapes(s: string)
    ensures NoEscapes(Unescape(s))
    ensures s != "" ==> Unescape(s) != "" && (Unescape(s)[0] == s[0] || (s[0] == '\\' && Unescape(s)[0] == '\n'))
  {
    if s == "" {
    } else if EscapeLength(s) > 0 {
      var rest := s[EscapeLength(s)..];
      UnescapeLeavesNoEscapes(rest);
      PrependedNoEscape('\n', Unescape(rest), Unescape(s));
    } else {
      UnescapeLeavesNoEscapes(s[1..]);
      PrependedNoEscape(s[0], Unescape(s[1..]), Unescape(s));
    }
  }

  lemma PrependedNoEscape(c: char, rest: string, whole: string)
    requires NoEscapes(rest) && whole == [c] + rest
    requires c == '\\' && rest != "" ==> rest[0] != 'n' && rest[0] != 'r'
    ensures NoEscapes(whole) && whole[0] == c
  {
    forall i | 0 <= i < |whole| - 1 && whole[i] == '\\' ensures whole[i + 1] != 'n' && whole[i + 1] != 'r' {
      if i > 0 {
        assert rest[i - 1] == '\\' && rest[i] == whole[i + 1];
      }
    }
  }

  /** One line of scrubbed, escape-free text. */
  predicate PlainLine(line: string) {
    && NoEscapes(line)
    && forall i :: 0 <= i < |line| ==> PlainCharacter(line[i]) && line[i] != '\n'
  }

  predicate Scrubbed(s: string) {
    NoEscapes(s) && forall i :: 0 <= i < |s| ==> Scrub(s[i]) == s[i]
  }

  lemma ScrubKeepsEscapeFreedom(s: string)
    requires NoEscapes(s)
    ensures Scrubbed(ScrubAll(s))
  {
    var t := ScrubAll(s);
    forall i | 0 <= i < |t| - 1 && t[i] == '\\' ensures t[i + 1] != 'n' && t[i + 1] != 'r' {
      assert s[i] == '\\';
    }
  }

  lemma {:induction false} LinesArePlain(s: string)
    requires Scrubbed(s)
    ensures forall l :: l in SplitLines(s) ==> PlainLine(l)
    decreases |s|
  {
    if s != "" {
      var k := FirstBreak(s);
      FirstBreakIsFirst(s);
      assert PlainLine(s[..k]);
      if k == |s| {
        assert s[..k] == s;
      } else {
        LinesArePlain(s[k + BreakLength(s, k)..]);
      }
    }
  }

  lemma SubstringIsPlain(line: string, i: nat, j: nat)
    requires PlainLine(line) && i <= j <= |line|
    ensures PlainLine(line[i..j])
  {
    var t := line[i..j];
    forall k | 0 <= k < |t| - 1 && t[k] == '\\' ensures t[k + 1] != 'n' && t[k + 1] != 'r' {
      assert t[k] == line[i + k] && t[k + 1] == line[i + k + 1];
    }
    forall k | 0 <= k < |t| ensures PlainCharacter(t[k]) && t[k] != '\n' {
      assert t[k] == line[i + k];
    }
  }

  lemma StripKeepsPlain(line: string)
    requires PlainLine(line)
    ensures PlainLine(Strip(line)) && TrimmedEnds(Strip(line))
  {
    var i, j := StripIsSubstring(line);
    SubstringIsPlain(line, i, j);
  }

  lemma {:induction false} JoinIsInner(lines: seq<string>)
    requires forall i :: 0 <= i < |lines| ==> PlainLine(lines[i]) && TrimmedEnds(lines[i])
    ensures Inner(Join(lines))
    ensures Join(lines) != "" ==> !IsBlank(Join(lines)[0])
  {
    if |lines| > 1 {
      var x, rest := lines[0], Join(lines[1..]);
      JoinIsInner(lines[1..]);
      var whole := x + "\n" + rest;
      assert Join(lines) == whole;
      forall i | 0 <= i < |whole|
        ensures PlainCharacter(whole[i])
        ensures i < |x| ==> whole[i] == x[i]
        ensures i > |x| ==> whole[i] == rest[i - |x| - 1]
      {
      }
      forall i | 0 <= i < |whole| - 1
        ensures !(whole[i] == '\n' && IsBlank(whole[i + 1])) && !(IsBlank(whole[i]) && whole[i + 1] == '\n')
        ensures whole[i] == '\\' ==> whole[i + 1] != 'n' && whole[i + 1] != 'r'
      {
        if i > |x| {
          assert whole[i] == rest[i - |x| - 1] && whole[i + 1] == rest[i - |x|];
        }
      }
    }
  }

  lemma SubstringIsInner(s: string, i: nat, j: nat)
    requires Inner(s) && i <= j <= |s|
    ensures Inner(s[i..j])
  {
    var t := s[i..j];
    forall k | 0 <= k < |t| - 1
      ensures !(t[k] == '\n' && IsBlank(t[k + 1])) && !(IsBlank(t[k]) && t[k + 1] == '\n')
      ensures t[k] == '\\' ==> t[k + 1] != 'n' && t[k + 1] != 'r'
    {
      assert t[k] == s[i + k] && t[k + 1] == s[i + k + 1];
    }
  }

  lemma OutputIsNormalized(s: string)
    ensures Normalized(Normalize(s))
  {
    UnescapeLeavesNoEscapes(s);
    ScrubKeepsEscapeFreedom(Unescape(s));
    var lines := SplitLines(ScrubAll(Unescape(s)));
    LinesArePlain(ScrubAll(Unescape(s)));
    StripAllStripsEach(lines);
    forall i | 0 <= i < |lines| ensures PlainLine(StripAll(lines)[i]) && TrimmedEnds(StripAll(lines)[i]) {
      assert lines[i] in lines;
      StripKeepsPlain(lines[i]);
    }
    JoinIsInner(StripAll(lines));
    var joined := Join(StripAll(lines));
    var i, j := StripIsSubstring(joined);
    SubstringIsInner(joined, i, j);
  }

  // ---------- normalized text is a fixed point ----------

  lemma {:induction false} NothingToUnescape(s: string)
    requires NoEscapes(s)
    ensures Unescape(s) == s
  {
    if s != "" {
      assert NoEscapes(s[1..]) by {
        forall i | 0 <= i < |s[1..]| - 1 && s[1..][i] == '\\' ensures s[1..][i + 1] != 'n' && s[1..][i + 1] != 'r' {
          assert s[i + 1] == '\\';
        }
      }
      NothingToUnescape(s[1..]);
    }
  }

  predicate Joinable(s: string) {
    && PlainCharacters(s) && TrimmedInside(s)
    && (s == "" || (!IsBlank(s[0]) && !IsSpace(s[|s| - 1])))
  }

  lemma NotBreakNotSpaceAround(s: string, k: nat)
    requires Joinable(s) && k < |s| && s[k] == '\n'
    ensures k + 1 < |s|
    ensures !IsBlank(s[k + 1])
    ensures k > 0 ==> !IsBlank(s[k - 1])
  {
    assert IsSpace('\n');
  }

  lemma FirstLine(s: string)
    requires Joinable(s) && FirstBreak(s) < |s|
    ensures var k := FirstBreak(s);
            && s[k] == '\n' && BreakLength(s, k) == 1
            && TrimmedEnds(s[..k])
            && s[k + 1..] != "" && Joinable(s[k + 1..])
  {
    var k := FirstBreak(s);
    FirstBreakIsFirst(s);
    assert PlainCharacter(s[k]);
    NotBreakNotSpaceAround(s, k);
    Suffix(s, k + 1);
    var rest := s[k + 1..];
    assert rest[0] == s[k + 1] && rest[|rest| - 1] == s[|s| - 1];
    if k > 0 {
      assert !IsLineBreak(s[0]) && !IsLineBreak(s[k - 1]);
      assert s[..k][0] == s[0] && s[..k][k - 1] == s[k - 1];
    }
  }

  lemma PrependLine(line: string, rest: seq<string>)
    ensures StripAll([line] + rest) == [Strip(line)] + StripAll(rest)
    ensures rest != [] ==> Join([line] + rest) == line + "\n" + Join(rest)
    ensures Join([line]) == line
  {
    assert ([line] + rest)[1..] == rest;
  }

  /** A text is its first line, a newline, and the lines of the rest. */
  lemma Dissect(s: string)
    requires Joinable(s) && s != ""
    ensures FirstBreak(s) == |s| ==> TrimmedEnds(s) && SplitLines(s) == [s]
    ensures FirstBreak(s) < |s| ==>
              var line, rest := s[..FirstBreak(s)], s[FirstBreak(s) + 1..];
              && s == line + "\n" + rest
              && TrimmedEnds(line)
              && Joinable(rest) && rest != ""
              && SplitLines(s) == [line] + SplitLines(rest)
  {
    FirstBreakIsFirst(s);
    if FirstBreak(s) == |s| {
      assert !IsLineBreak(s[0]);
    } else {
      FirstLine(s);
    }
  }

  /** Lines of text whose only breaks are newlines, none at the end, are already stripped and join back. */
  lemma {:induction false} LinesJoinBack(s: string)
    requires Joinable(s)
    ensures StripAll(SplitLines(s)) == SplitLines(s)
    ensures Join(SplitLines(s)) == s
    decreases |s|
  {
    if s != "" {
      Dissect(s);
      if FirstBreak(s) == |s| {
        PrependLine(s, []);
        TrimmedIsStripped(s);
        assert [s] + [] == [s];
      } else {
        var line, rest := s[..FirstBreak(s)], s[FirstBreak(s) + 1..];
        LinesJoinBack(rest);
        PrependLine(line, SplitLines(rest));
        TrimmedIsStripped(line);
      }
    }
  }

  lemma Suffix(s: string, k: nat)
    requires PlainCharacters(s) && TrimmedInside(s) && k <= |s|
    ensures PlainCharacters(s[k..]) && TrimmedInside(s[k..])
  {
    var t := s[k..];
    forall i | 0 <= i < |t| - 1
      ensures !(t[i] == '\n' && IsBlank(t[i + 1])) && !(IsBlank(t[i]) && t[i + 1] == '\n')
    {
      assert t[i] == s[k + i] && t[i + 1] == s[k + i + 1];
    }
  }

  lemma NormalizedIsFixed(s: string)
    requires Normalized(s)
    ensures Normalize(s) == s
  {
    NothingToUnescape(s);
    assert ScrubAll(s) == s by {
      forall i | 0 <= i < |s| ensures Scrub(s[i]) == s[i] {
        assert PlainCharacter(s[i]);
      }
    }
    LinesJoinBack(s);
    TrimmedIsStripped(s);
  }

  /** Where nothing is escaped and scrubbing is enough, scrubbing is all that happens. */
  lemma ScrubbingIsEnough(s: string)
    requires NoEscapes(s) && Normalized(ScrubAll(s))
    ensures Normalize(s) == ScrubAll(s)
  {
    var t := ScrubAll(s);
    NothingToUnescape(s);
    NothingToUnescape(t);
    NormalizedIsFixed(t);
    assert ScrubAll(t) == t by {
      forall i | 0 <= i < |t| ensures Scrub(t[i]) == t[i] {
        assert PlainCharacter(t[i]);
      }
    }
  }

  /** Nothing is left of a blank. */
  lemma BlankIsNormalizedAway(s: string)
    requires s == " "
    ensures Normalize(s) == ""
  {
    NothingToUnescape(s);
    assert ScrubAll(s) == s;
    assert s[..1] == s && s[1..] == "" && s[..0] == "";
    assert FirstBreak("") == 0 && FirstBreak(s) == 1;
    assert SplitLines(s) == [s];
    assert StripLeft(s) == "";
    assert StripAll([s]) == [""] by {
      assert [s][1..] == [];
    }
  }

  /** Normalization changes exactly the texts that are not normalized. */
  lemma FixedPointsAreNormalized(s: string)
    ensures Normalize(s) == s <==> Normalized(s)
  {
    OutputIsNormalized(s);
    if Normalized(s) {
      NormalizedIsFixed(s);
    }
  }

  lemma NormalizeIsIdempotent(s: string)
    ensures Normalize(Normalize(s)) == Normalize(s)
  {
    OutputIsNormalized(s);
    NormalizedIsFixed(Normalize(s));
  }

  // ---------- normalization never lengthens ----------

  lemma {:induction false} UnescapeShortens(s: string)
    ensures |Unescape(s)| <= |s|
  {
    if s == "" {
    } else if EscapeLength(s) > 0 {
      UnescapeShortens(s[EscapeLength(s)..]);
    } else {
      UnescapeShortens(s[1..]);
    }
  }

  /** A stripped first line, a newline and what follows are no longer than the line, its break and the rest. */
  lemma JoinedLength(line: string, rest: seq<string>)
    ensures |Join(StripAll([line] + rest))| <= |line| + 1 + |Join(StripAll(rest))|
  {
    PrependLine(line, rest);
    var stripped := StripAll(rest);
    assert ([Strip(line)] + stripped)[1..] == stripped;
  }

  lemma SplitOnce(s: string, k: nat, n: nat)
    requires s != "" && k == FirstBreak(s) && k < |s| && n == BreakLength(s, k)
    ensures SplitLines(s) == [s[..k]] + SplitLines(s[k + n..])
  {
  }

  lemma LastLine(s: string)
    requires s != "" && FirstBreak(s) == |s|
    ensures |Join(StripAll(SplitLines(s)))| <= |s|
  {
    PrependLine(s, []);
    assert [s] + [] == [s];
  }

  lemma {:induction false} LinesAreShorter(s: string)
    ensures |Join(StripAll(SplitLines(s)))| <= |s|
    decreases |s|
  {
    if s != "" {
      var k := FirstBreak(s);
      if k == |s| {
        LastLine(s);
      } else {
        var n := BreakLength(s, k);
        SplitOnce(s, k, n);
        LinesAreShorter(s[k + n..]);
        JoinedLength(s[..k], SplitLines(s[k + n..]));
      }
    }
  }

  lemma NormalizeShortens(s: string)
    ensures |Normalize(s)| <= |s|
  {
    UnescapeShortens(s);
    LinesAreShorter(ScrubAll(Unescape(s)));
  }
}
