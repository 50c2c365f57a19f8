/** Which extracted texts are suspicious, which fields say the same, and which texts are page furniture. */
module TextRules {
  import opened TextNormalization
  import opened Decimal

  /** The judgements the pipeline makes about single texts; everything else is proved for any of them. */
  datatype Rules = Rules(
    suspicious: string -> bool,
    identity: (string, string) -> (string, string),
    furniture: string -> bool)

  /** Not accounting content: nothing left after normalization, or furniture. */
  predicate Boilerplate(rules: Rules, v: string) {
    Normalize(v) == "" || rules.furniture(Normalize(v))
  }

  /** Whether a text is boilerplate survives normalization. */
  lemma BoilerplateIgnoresArtifacts(rules: Rules, v: string)
    ensures Boilerplate(rules, Normalize(v)) <==> Boilerplate(rules, v)
  {
    NormalizeIsIdempotent(v);
  }

  // ---------- the rules of the code ----------

  /** The Unicode tables of Python that the rules consult. */
  datatype Unicode = Unicode(casefold: string -> string, isAlnum: char -> bool, isUpper: string -> bool)

  function PythonRules(u: Unicode): Rules {
    Rules(
      v => Suspicious(u, v),
      (name, value) => (Strip(u.casefold(name)), Strip(u.casefold(value))),
      text => Furniture(u, text))
  }

  function Compact(s: string): string {
    if s == "" then "" else (if IsSpace(s[0]) then "" else [s[0]]) + Compact(s[1..])
  }

  function CountOf(s: string, holds: char -> bool): nat {
    if s == "" then 0 else (if holds(s[0]) then 1 else 0) + CountOf(s[1..], holds)
  }

  predicate Suspicious(u: Unicode, v: string) {
    || '\U{FFFD}' in v
    || (exists i :: 0 <= i < |v| && IsC0Control(v[i]))
    || (|Compact(v)| >= 5 && 5 * CountOf(Compact(v), u.isAlnum) < |Compact(v)|)
  }

  // ---------- page furniture ----------

  function WordLength(s: string): (k: nat)
    ensures k <= |s|
  {
    if s == "" || IsSpace(s[0]) then 0 else 1 + WordLength(s[1..])
  }

  /** `str.split()` */
  function Words(s: string): seq<string>
    decreases |s|
  {
    if s == "" then []
    else if IsSpace(s[0]) then Words(s[1..])
    else [s[..WordLength(s)]] + Words(s[WordLength(s)..])
  }

  function Spaced(words: seq<string>): string {
    if words == [] then "" else if |words| == 1 then words[0] else words[0] + " " + Spaced(words[1..])
  }

  predicate Contains(s: string, part: string) {
    part <= s || (s != "" && Contains(s[1..], part))
  }

  function Skip(s: string, prefix: string): string {
    if prefix <= s then s[|prefix|..] else s
  }

  predicate IsGeneratedNotice(s: string) {
    && "this is " <= s
    && var s := Skip(s[8..], "a ");
    && "computer" <= s && |s| > 8 && (s[8] == '-' || s[8] == ' ')
    && var s := s[9..];
    && "generated statement and does not require " <= s
    && var s := Skip(s[41..], "a ");
    && (s == "signature" || s == "signature.")
  }

  function LeadingDigits(s: string): (k: nat)
    ensures k <= |s| && AllDigits(s[..k])
  {
    if s == "" || !IsDigit(s[0]) then 0
    else
      var k := LeadingDigits(s[1..]);
      assert s[..k + 1] == [s[0]] + s[1..][..k];
      1 + k
  }

  predicate IsPageNumber(s: string) {
    && "page " <= s
    && var s := s[5..];
    && var k := LeadingDigits(s);
    && k > 0
    && (k == |s| || (" of " <= s[k..] && s[k + 4..] != "" && AllDigits(s[k + 4..])))
  }

  function NonBlankLines(lines: seq<string>): seq<string> {
    if lines == [] then []
    else (if Strip(lines[0]) != "" then [Strip(lines[0])] else []) + NonBlankLines(lines[1..])
  }

  predicate IsContinuation(u: Unicode, lines: seq<string>) {
    && 1 <= |lines| <= 3
    && u.isUpper(lines[0])
    && exists i :: 0 <= i < |lines| && Contains(u.casefold(lines[i]), "continued")
  }

  predicate Furniture(u: Unicode, text: string) {
    var folded := Spaced(Words(u.casefold(text)));
    || folded == ""
    || ("synthetic test document" <= folded && Contains(folded, "not for accounting use"))
    || IsGeneratedNotice(folded)
    || IsPageNumber(folded)
    || IsContinuation(u, NonBlankLines(SplitLines(text)))
  }
}
