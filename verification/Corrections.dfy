/** JSON Pointer corrections over a JSON tree, and the append-only log that is replayed over canonical data. */
module Corrections {
  import opened Wrappers
  import opened Decimal

  datatype Json =
    | Null | Bool(b: bool) | Number(n: int) | String(s: string)
    | Array(items: seq<Json>) | Object(members: map<string, Json>)

  datatype PathError = InvalidEscape | NotAPointer | InvalidIndex | OutOfBounds | NoSuchField | ScalarTraversed

  // ---------- reference tokens ----------

  /** Every tilde starts one of the two escapes. */
  predicate WellFormedToken(token: string) {
    forall i :: 0 <= i < |token| && token[i] == '~' ==> i + 1 < |token| && token[i + 1] in {'0', '1'}
  }

  /** All occurrences of the escape `~b` replaced by `c`. */
  function ReplaceEscape(s: string, b: char, c: char): string {
    if s == "" then ""
    else if |s| >= 2 && s[0] == '~' && s[1] == b then [c] + ReplaceEscape(s[2..], b, c)
    else [s[0]] + ReplaceEscape(s[1..], b, c)
  }

  /** The rule of section 4 of RFC 6901: first every `~1` becomes a slash, then every `~0` becomes a tilde. */
  function TwoPassDecode(token: string): string {
    ReplaceEscape(ReplaceEscape(token, '1', '/'), '0', '~')
  }

  /** The single pass of the code, as a function of what is left to decode. */
  function Decode(token: string): Option<string> {
    if token == "" then Some("")
    else if token[0] != '~' then Prepend(token[0], Decode(token[1..]))
    else if |token| < 2 || token[1] !in {'0', '1'} then None
    else Prepend(if token[1] == '0' then '~' else '/', Decode(token[2..]))
  }

  function Prepend(c: char, rest: Option<string>): Option<string> {
    match rest case None => None case Some(s) => Some([c] + s)
  }

  lemma {:induction false} SinglePassIsTwoPass(token: string)
    ensures Decode(token).Some? <==> WellFormedToken(token)
    ensures WellFormedToken(token) ==> Decode(token) == Some(TwoPassDecode(token))
  {
    if token == "" {
    } else if token[0] != '~' {
      SinglePassIsTwoPass(token[1..]);
      assert WellFormedToken(token) <==> WellFormedToken(token[1..]) by { TokenTail(token, 1); }
      assert ReplaceEscape(token, '1', '/') == [token[0]] + ReplaceEscape(token[1..], '1', '/');
    } else if |token| < 2 || token[1] !in {'0', '1'} {
      assert !WellFormedToken(token);
    } else {
      SinglePassIsTwoPass(token[2..]);
      assert WellFormedToken(token) <==> WellFormedToken(token[2..]) by { TokenTail(token, 2); }
      EscapedHead(token);
    }
  }

  lemma TokenTail(token: string, k: nat)
    requires 1 <= k <= 2 && k <= |token|
    requires k == 1 ==> token[0] != '~'
    requires k == 2 ==> token[0] == '~' && token[1] in {'0', '1'}
    ensures WellFormedToken(token) <==> WellFormedToken(token[k..])
  {
    var tail := token[k..];
    assert forall i :: 0 <= i < |tail| ==> tail[i] == token[k + i];
    if WellFormedToken(tail) {
      forall i | 0 <= i < |token| && token[i] == '~' ensures i + 1 < |token| && token[i + 1] in {'0', '1'} {
        if i >= k {
          assert tail[i - k] == '~';
        }
      }
    }
  }

  lemma EscapedHead(token: string)
    requires |token| >= 2 && token[0] == '~' && token[1] in {'0', '1'}
    ensures TwoPassDecode(token) == [if token[1] == '0' then '~' else '/'] + TwoPassDecode(token[2..])
  {
    var first := ReplaceEscape(token[2..], '1', '/');
    if token[1] == '1' {
      assert ReplaceEscape(token, '1', '/') == ['/'] + first;
      assert (['/'] + first)[1..] == first;
    } else {
      assert token[1..][1..] == token[2..];
      assert ReplaceEscape(token[1..], '1', '/') == ['0'] + first;
      assert ReplaceEscape(token, '1', '/') == ['~'] + (['0'] + first);
      var whole := ['~'] + (['0'] + first);
      assert whole[0] == '~' && whole[1] == '0' && whole[2..] == first;
    }
  }

  /** The outcome when `decoded` comes before what is still to decode. */
  function After(decoded: string, rest: Option<string>): Option<string> {
    match rest case None => None case Some(s) => Some(decoded + s)
  }

  lemma AfterOne(decoded: string, c: char, rest: Option<string>)
    ensures After(decoded, Prepend(c, rest)) == After(decoded + [c], rest)
  {
    if rest.Some? {
      assert decoded + ([c] + rest.value) == decoded + [c] + rest.value;
    }
  }

  lemma DecodeAt(token: string, index: nat)
    requires index < |token|
    ensures token[index] != '~' ==> Decode(token[index..]) == Prepend(token[index], Decode(token[index + 1..]))
    ensures token[index] == '~' && (index + 1 >= |token| || token[index + 1] !in {'0', '1'}) ==>
              Decode(token[index..]) == None
    ensures token[index] == '~' && index + 1 < |token| && token[index + 1] in {'0', '1'} ==>
              Decode(token[index..]) == Prepend(if token[index + 1] == '0' then '~' else '/', Decode(token[index + 2..]))
  {
    var rest := token[index..];
    assert rest[1..] == token[index + 1..];
    assert index + 1 < |token| ==> rest[2..] == token[index + 2..];
  }

  /** Decodes in one pass exactly the well-formed tokens, and as the two-pass rule does. */
  method DecodeToken(token: string) returns (r: Result<string, PathError>)
    ensures r.Ok? <==> WellFormedToken(token)
    ensures r.Ok? ==> r.value == TwoPassDecode(token)
  {
    var decoded := DecodePass(token);
    SinglePassIsTwoPass(token);
    return match decoded case None => Err(InvalidEscape) case Some(s) => Ok(s);
  }

  method DecodePass(token: string) returns (r: Option<string>)
    ensures r == Decode(token)
  {
    var decoded := "";
    var index := 0;
    assert token[0..] == token;
    assert After("", Decode(token)) == Decode(token) by {
      if Decode(token).Some? {
        assert "" + Decode(token).value == Decode(token).value;
      }
    }
    while index < |token|
      invariant 0 <= index <= |token|
      invariant Decode(token) == After(decoded, Decode(token[index..]))
    {
      var character := token[index];
      DecodeAt(token, index);
      if character != '~' {
        AfterOne(decoded, character, Decode(token[index + 1..]));
        decoded := decoded + [character];
        index := index + 1;
        continue;
      }
      if index + 1 >= |token| || token[index + 1] !in {'0', '1'} {
        return None;
      }
      var plain := if token[index + 1] == '0' then '~' else '/';
      AfterOne(decoded, plain, Decode(token[index + 2..]));
      decoded := decoded + [plain];
      index := index + 2;
    }
    assert token[|token|..] == "" && decoded + "" == decoded;
    return Some(decoded);
  }

  // ---------- pointers ----------

  /** `str.split("/")` */
  function Split(s: string): (parts: seq<string>)
    ensures parts != []
  {
    if s == "" then [""]
    else
      var rest := Split(s[1..]);
      if s[0] == '/' then [""] + rest else [[s[0]] + rest[0]] + rest[1..]
  }

  function DecodeAll(parts: seq<string>): Result<seq<string>, PathError> {
    if parts == [] then Ok([])
    else
      match Decode(parts[0])
      case None => Err(InvalidEscape)
      case Some(token) =>
        match DecodeAll(parts[1..])
        case Err(e) => Err(e)
        case Ok(rest) => Ok([token] + rest)
  }

  function Tokens(path: string): (r: Result<seq<string>, PathError>)
    ensures r.Ok? ==> r.value != []
  {
    if path == "" || path[0] != '/' then Err(NotAPointer) else DecodeAll(Split(path[1..]))
  }

  /** The pointer that names a path of tokens. */
  function Pointer(tokens: seq<string>): string {
    if tokens == [] then "" else "/" + tokens[0] + Pointer(tokens[1..])
  }

  predicate PlainToken(token: string) {
    '/' !in token && '~' !in token
  }

  lemma {:induction false} SplitAtSlash(head: string, tail: string)
    requires '/' !in head
    ensures Split(head) == [head]
    ensures Split(head + "/" + tail) == [head] + Split(tail)
  {
    if head == "" {
      assert ("" + "/" + tail)[1..] == tail;
    } else {
      assert (head + "/" + tail)[1..] == head[1..] + "/" + tail;
      SplitAtSlash(head[1..], tail);
      assert [head[0]] + head[1..] == head;
    }
  }

  lemma {:induction false} SplitPointer(tokens: seq<string>)
    requires tokens != [] && forall t :: t in tokens ==> '/' !in t
    ensures Pointer(tokens) != "" && Pointer(tokens)[0] == '/'
    ensures Split(Pointer(tokens)[1..]) == tokens
    ensures Split(Pointer(tokens)) == [""] + tokens
  {
    var rest := Pointer(tokens[1..]);
    assert Pointer(tokens)[1..] == tokens[0] + rest;
    if |tokens| == 1 {
      assert tokens[0] + rest == tokens[0] && tokens == [tokens[0]];
      SplitAtSlash(tokens[0], "");
    } else {
      SplitPointer(tokens[1..]);
      assert rest == "/" + rest[1..];
      assert tokens[0] + rest == tokens[0] + "/" + rest[1..];
      SplitAtSlash(tokens[0], rest[1..]);
    }
  }

  lemma {:induction false} PlainTokenDecodes(token: string)
    requires PlainToken(token)
    ensures Decode(token) == Some(token)
  {
    if token != "" {
      assert token[0] in token && [token[0]] + token[1..] == token;
      PlainTokenDecodes(token[1..]);
    }
  }

  lemma {:induction false} PlainTokensDecode(parts: seq<string>)
    requires forall t :: t in parts ==> PlainToken(t)
    ensures DecodeAll(parts) == Ok(parts)
  {
    if parts != [] {
      PlainTokenDecodes(parts[0]);
      PlainTokensDecode(parts[1..]);
      assert [parts[0]] + parts[1..] == parts;
    }
  }

  /** A pointer made of plain tokens is read back as those tokens. */
  lemma PointerRoundTrip(tokens: seq<string>)
    requires tokens != [] && forall t :: t in tokens ==> PlainToken(t)
    ensures Tokens(Pointer(tokens)) == Ok(tokens)
  {
    SplitPointer(tokens);
    PlainTokensDecode(tokens);
  }

  function ListIndex(token: string, length: nat): (r: Result<nat, PathError>)
    ensures r.Ok? ==> r.value < length && Canonical(token) && Parse(token) == r.value
  {
    if token == "" || !AllDigits(token) || (|token| > 1 && token[0] == '0') then Err(InvalidIndex)
    else if Parse(token) >= length then Err(OutOfBounds)
    else Ok(Parse(token))
  }

  function Child(j: Json, token: string): Result<Json, PathError> {
    match j
    case Object(members) => if token in members then Ok(members[token]) else Err(NoSuchField)
    case Array(items) =>
      (match ListIndex(token, |items|)
       case Err(e) => Err(e)
       case Ok(i) => Ok(items[i]))
    case _ => Err(ScalarTraversed)
  }

  function WithChild(j: Json, token: string, c: Json): Json
    requires Child(j, token).Ok?
  {
    match j
    case Object(members) => Object(members[token := c])
    case Array(items) => Array(items[ListIndex(token, |items|).value := c])
  }

  function Lookup(j: Json, tokens: seq<string>): Result<Json, PathError> {
    if tokens == [] then Ok(j)
    else
      match Child(j, tokens[0])
      case Err(e) => Err(e)
      case Ok(c) => Lookup(c, tokens[1..])
  }

  /** The tree with the value at an existing location replaced. */
  function Replaced(j: Json, tokens: seq<string>, value: Json): Json
    requires Lookup(j, tokens).Ok?
  {
    if tokens == [] then value
    else WithChild(j, tokens[0], Replaced(Child(j, tokens[0]).value, tokens[1..], value))
  }

  // ---------- laws of one replacement ----------

  lemma ChildLaws(j: Json, token: string, c: Json, d: Json)
    requires Child(j, token).Ok?
    ensures Child(WithChild(j, token, c), token) == Ok(c)
    ensures WithChild(WithChild(j, token, c), token, d) == WithChild(j, token, d)
    ensures WithChild(j, token, Child(j, token).value) == j
    ensures forall other :: other != token ==> Child(WithChild(j, token, c), other) == Child(j, other)
  {
    if j.Array? {
      forall other | other != token ensures Child(WithChild(j, token, c), other) == Child(j, other) {
        if ListIndex(other, |j.items|).Ok? {
          RenderParse(other);
          RenderParse(token);
        }
      }
      var i := ListIndex(token, |j.items|).value;
      assert j.items[i := c][i := d] == j.items[i := d];
      assert j.items[i := j.items[i]] == j.items;
    } else {
      var m := j.members;
      assert m[token := c][token := d] == m[token := d];
      assert m[token := m[token]] == m;
    }
  }

  /** The new value is found where it was written, and writing the old value back restores the tree. */
  lemma {:induction false} ReplaceAndRestore(j: Json, tokens: seq<string>, value: Json)
    requires Lookup(j, tokens).Ok?
    ensures Lookup(Replaced(j, tokens, value), tokens) == Ok(value)
    ensures Replaced(Replaced(j, tokens, value), tokens, Lookup(j, tokens).value) == j
  {
    if tokens != [] {
      var child := Child(j, tokens[0]).value;
      ReplaceAndRestore(child, tokens[1..], value);
      ChildLaws(j, tokens[0], Replaced(child, tokens[1..], value), child);
    }
  }

  predicate Disjoint(p: seq<string>, q: seq<string>) {
    !(p <= q) && !(q <= p)
  }

  /** No other location notices: everything not above or below the written one reads as before. */
  lemma {:induction false} ReplaceIsLocal(j: Json, tokens: seq<string>, value: Json, other: seq<string>)
    requires Lookup(j, tokens).Ok? && Disjoint(tokens, other)
    ensures Lookup(Replaced(j, tokens, value), other) == Lookup(j, other)
  {
    var child := Child(j, tokens[0]).value;
    ChildLaws(j, tokens[0], Replaced(child, tokens[1..], value), child);
    if tokens[0] == other[0] {
      assert tokens == [tokens[0]] + tokens[1..] && other == [other[0]] + other[1..];
      ReplaceIsLocal(child, tokens[1..], value, other[1..]);
    }
  }

  /** A token is an index exactly when it is the numeral of one; a larger numeral is out of bounds, all else invalid. */
  lemma IndicesAreNumerals(token: string, length: nat)
    ensures forall i: nat :: ListIndex(token, length) == Ok(i) <==> i < length && token == Render(i)
    ensures ListIndex(token, length) == Err(OutOfBounds) <==> exists i :: i >= length && token == Render(i)
    ensures ListIndex(token, length).Err? && !(exists i :: token == Render(i)) ==>
              ListIndex(token, length) == Err(InvalidIndex)
  {
    forall i: nat ensures Parse(Render(i)) == i && Canonical(Render(i)) {
      ParseRender(i);
    }
    if Canonical(token) {
      RenderParse(token);
      assert token == Render(Parse(token));
    }
  }

  /** A path fails where its first step does: at a missing member, a bad index, or a scalar. */
  lemma {:induction false} LookupFailsAtTheFirst(j: Json, tokens: seq<string>, k: nat)
    requires k < |tokens| && Lookup(j, tokens[..k]).Ok?
    ensures var at := Lookup(j, tokens[..k]).value;
            Child(at, tokens[k]).Err? ==> Lookup(j, tokens) == Err(
              if at.Object? then NoSuchField
              else if at.Array? then ListIndex(tokens[k], |at.items|).error else ScalarTraversed)
  {
    if k > 0 {
      assert tokens[..k][0] == tokens[0] && tokens[..k][1..] == tokens[1..][..k - 1];
      LookupFailsAtTheFirst(Child(j, tokens[0]).value, tokens[1..], k - 1);
    }
  }

  lemma {:induction false} LookupExtends(j: Json, tokens: seq<string>, last: string)
    ensures Lookup(j, tokens + [last]) ==
              match Lookup(j, tokens) case Err(e) => Err(e) case Ok(parent) => Child(parent, last)
  {
    if tokens == [] {
      assert ([] + [last])[1..] == [];
    } else {
      assert (tokens + [last])[1..] == tokens[1..] + [last];
      if Child(j, tokens[0]).Ok? {
        LookupExtends(Child(j, tokens[0]).value, tokens[1..], last);
      }
    }
  }

  lemma {:induction false} ReplaceExtends(j: Json, tokens: seq<string>, last: string, value: Json)
    requires Lookup(j, tokens + [last]).Ok?
    ensures Lookup(j, tokens).Ok? && Child(Lookup(j, tokens).value, last).Ok?
    ensures Replaced(j, tokens + [last], value) == Replaced(j, tokens, WithChild(Lookup(j, tokens).value, last, value))
  {
    LookupExtends(j, tokens, last);
    if tokens == [] {
      assert ([] + [last])[1..] == [];
    } else {
      assert (tokens + [last])[1..] == tokens[1..] + [last];
      ReplaceExtends(Child(j, tokens[0]).value, tokens[1..], last, value);
    }
  }

  /** What a pointer resolves to. */
  function Resolve(j: Json, path: string): Result<Json, PathError> {
    match Tokens(path) case Err(e) => Err(e) case Ok(tokens) => Lookup(j, tokens)
  }

  function ReplacedAt(j: Json, path: string, value: Json): Json
    requires Resolve(j, path).Ok?
  {
    Replaced(j, Tokens(path).value, value)
  }

  // ---------- the document the code mutates ----------

  class JsonDocument {
    var root: Json

    constructor (root: Json)
      ensures this.root == root
    {
      this.root := root;
    }

    /** Replaces the value at an existing location and answers the previous one; any error changes nothing. */
    method ReplacePointer(path: string, value: Json) returns (r: Result<Json, PathError>)
      modifies this
      ensures r == Resolve(old(root), path)
      ensures root == if r.Ok? then ReplacedAt(old(root), path, value) else old(root)
    {
      var parsed := Tokens(path);
      if parsed.Err? {
        return Err(parsed.error);
      }
      var tokens := parsed.value;
      var current := root;
      var i := 0;
      while i < |tokens| - 1
        invariant 0 <= i <= |tokens| - 1
        invariant Lookup(root, tokens[..i]) == Ok(current)
        invariant Lookup(root, tokens) == Lookup(current, tokens[i..])
        invariant root == old(root)
      {
        var next := Child(current, tokens[i]);
        assert tokens[i..] != [] && tokens[i..][0] == tokens[i];
        assert tokens[..i + 1] == tokens[..i] + [tokens[i]];
        LookupExtends(root, tokens[..i], tokens[i]);
        if next.Err? {
          assert Lookup(current, tokens[i..]) == Err(next.error);
          return Err(next.error);
        }
        current := next.value;
        i := i + 1;
        assert tokens[i - 1..][1..] == tokens[i..];
      }
      var finalToken := tokens[i];
      assert tokens == tokens[..i] + [finalToken];
      LookupExtends(root, tokens[..i], finalToken);
      var previous := Child(current, finalToken);
      if previous.Err? {
        return Err(previous.error);
      }
      ReplaceExtends(root, tokens[..i], finalToken, value);
      current := WithChild(current, finalToken, value);
      root := Replaced(root, tokens[..i], current);
      return Ok(previous.value);
    }
  }

  // ---------- the correction log ----------

  datatype Correction = Correction(fieldPath: string, previousValue: Json, correctedValue: Json)

  /** Replaying a log; a log is replayable when every pointer resolves at its turn. */
  predicate Replayable(data: Json, log: seq<Correction>)
    decreases |log|
  {
    log == [] ||
    (&& Resolve(data, log[0].fieldPath).Ok?
     && Replayable(ReplacedAt(data, log[0].fieldPath, log[0].correctedValue), log[1..]))
  }

  function Replay(data: Json, log: seq<Correction>): Json
    requires Replayable(data, log)
    decreases |log|
  {
    if log == [] then data
    else Replay(ReplacedAt(data, log[0].fieldPath, log[0].correctedValue), log[1..])
  }

  /** Each entry remembers the value it replaced. */
  predicate Faithful(data: Json, log: seq<Correction>)
    requires Replayable(data, log)
    decreases |log|
  {
    log == [] ||
    (&& Resolve(data, log[0].fieldPath) == Ok(log[0].previousValue)
     && Faithful(ReplacedAt(data, log[0].fieldPath, log[0].correctedValue), log[1..]))
  }

  /** Replaying is incremental: appending corrections continues from the effective data. */
  lemma {:induction false} ReplayAppends(data: Json, log: seq<Correction>, more: seq<Correction>)
    requires Replayable(data, log)
    ensures Replayable(data, log + more) <==> Replayable(Replay(data, log), more)
    ensures Replayable(data, log + more) ==> Replay(data, log + more) == Replay(Replay(data, log), more)
    ensures Replayable(data, log + more) ==>
              (Faithful(data, log + more) <==> Faithful(data, log) && Faithful(Replay(data, log), more))
    decreases |log|
  {
    if log == [] {
      assert [] + more == more;
    } else {
      assert (log + more)[1..] == log[1..] + more;
      ReplayAppends(ReplacedAt(data, log[0].fieldPath, log[0].correctedValue), log[1..], more);
    }
  }

  function Undo(c: Correction): Correction {
    Correction(c.fieldPath, c.correctedValue, c.previousValue)
  }

  function UndoAll(log: seq<Correction>): (undo: seq<Correction>)
    ensures |undo| == |log|
    ensures forall i :: 0 <= i < |log| ==> undo[i] == Undo(log[|log| - 1 - i])
  {
    if log == [] then [] else UndoAll(log[1..]) + [Undo(log[0])]
  }

  /** Writing the recorded previous values back, last correction first, restores the canonical data exactly. */
  lemma {:induction false} LogIsReversible(data: Json, log: seq<Correction>)
    requires Replayable(data, log) && Faithful(data, log)
    ensures Replayable(Replay(data, log), UndoAll(log))
    ensures Replay(Replay(data, log), UndoAll(log)) == data
    decreases |log|
  {
    if log != [] {
      var next := ReplacedAt(data, log[0].fieldPath, log[0].correctedValue);
      LogIsReversible(next, log[1..]);
      ReplaceAndRestore(data, Tokens(log[0].fieldPath).value, log[0].correctedValue);
      var back := [Undo(log[0])];
      assert back[1..] == [];
      assert Replayable(next, back) && Replay(next, back) == data by {
        assert ReplacedAt(next, back[0].fieldPath, back[0].correctedValue) == data;
        assert Replayable(data, back[1..]);
      }
      ReplayAppends(Replay(data, log), UndoAll(log[1..]), back);
    }
  }

  /** `apply_corrections`: a private copy is corrected in log order; the canonical data stays as it was. */
  method ApplyCorrections(canonical: Json, corrections: seq<Correction>) returns (r: Result<Json, PathError>)
    ensures r.Ok? <==> Replayable(canonical, corrections)
    ensures r.Ok? ==> r.value == Replay(canonical, corrections)
  {
    var effective := new JsonDocument(canonical);
    assert corrections[0..] == corrections;
    for i := 0 to |corrections|
      invariant Replayable(canonical, corrections) <==> Replayable(effective.root, corrections[i..])
      invariant Replayable(canonical, corrections) ==>
                  Replay(canonical, corrections) == Replay(effective.root, corrections[i..])
      invariant fresh(effective)
    {
      assert corrections[i..][1..] == corrections[i + 1..];
      var previous := effective.ReplacePointer(corrections[i].fieldPath, corrections[i].correctedValue);
      if previous.Err? {
        return Err(previous.error);
      }
    }
    return Ok(effective.root);
  }
}
