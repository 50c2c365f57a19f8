/** Lists of ids: filtering, and lists without repetition. */
module Sequences {

  predicate NoDup<T(==)>(s: seq<T>) {
    forall i, j :: 0 <= i < j < |s| ==> s[i] != s[j]
  }

  function ToSet<T>(s: seq<T>): set<T> {
    set i | 0 <= i < |s| :: s[i]
  }

  /** The elements for which p holds, in order. */
  function Keep<T>(s: seq<T>, p: T -> bool): seq<T> {
    if s == [] then [] else Keep(s[..|s| - 1], p) + (if p(s[|s| - 1]) then [s[|s| - 1]] else [])
  }

  lemma {:induction false} KeepMembers<T>(s: seq<T>, p: T -> bool)
    ensures forall x :: x in Keep(s, p) <==> x in s && p(x)
    ensures NoDup(s) ==> NoDup(Keep(s, p))
  {
    if s != [] {
      var front, last := s[..|s| - 1], s[|s| - 1];
      assert s == front + [last];
      KeepMembers(front, p);
      if NoDup(s) {
        assert last !in front;
      }
    }
  }

  lemma {:induction false} KeepAll<T>(s: seq<T>, p: T -> bool)
    requires forall x :: x in s ==> p(x)
    ensures Keep(s, p) == s
  {
    if s != [] {
      KeepAll(s[..|s| - 1], p);
      assert s == s[..|s| - 1] + [s[|s| - 1]];
    }
  }

  lemma {:induction false} KeepNone<T>(s: seq<T>, p: T -> bool)
    requires forall x :: x in s ==> !p(x)
    ensures Keep(s, p) == []
  {
    if s != [] {
      KeepNone(s[..|s| - 1], p);
    }
  }

  lemma KeepSkips<T>(front: seq<T>, x: T, p: T -> bool)
    requires !p(x)
    ensures Keep(front + [x], p) == Keep(front, p)
  {
    assert (front + [x])[..|front|] == front;
  }

  lemma KeepAllButOne<T>(front: seq<T>, x: T, rest: seq<T>, p: T -> bool)
    requires !p(x) && (forall y :: y in front ==> p(y)) && (forall y :: y in rest ==> p(y))
    ensures Keep(front + [x] + rest, p) == front + rest
  {
    calc {
      Keep(front + [x] + rest, p);
      { KeepSplits(front + [x], rest, p); }
      Keep(front + [x], p) + Keep(rest, p);
      { KeepSkips(front, x, p); }
      Keep(front, p) + Keep(rest, p);
      { KeepAll(front, p); KeepAll(rest, p); }
      front + rest;
    }
  }

  lemma {:induction false} KeepSplits<T>(a: seq<T>, b: seq<T>, p: T -> bool)
    ensures Keep(a + b, p) == Keep(a, p) + Keep(b, p)
  {
    if b == [] {
      assert a + b == a;
    } else {
      KeepSplits(a, b[..|b| - 1], p);
      assert (a + b)[..|a + b| - 1] == a + b[..|b| - 1];
    }
  }

  /** Where the k-th kept element comes from. */
  function KeptIndex<T>(s: seq<T>, p: T -> bool, k: nat): (j: nat)
    requires k < |Keep(s, p)|
    ensures j < |s| && s[j] == Keep(s, p)[k] && p(s[j])
    ensures |Keep(s[..j], p)| == k
  {
    var front := s[..|s| - 1];
    if k < |Keep(front, p)| then
      var j := KeptIndex(front, p, k);
      assert front[..j] == s[..j];
      j
    else |s| - 1
  }

  /** What is kept stays in order. */
  lemma {:induction false} KeptInOrder<T>(s: seq<T>, p: T -> bool, k: nat, l: nat)
    requires k < l < |Keep(s, p)|
    ensures KeptIndex(s, p, k) < KeptIndex(s, p, l)
  {
    if l < |Keep(s[..|s| - 1], p)| {
      KeptInOrder(s[..|s| - 1], p, k, l);
    }
  }

  /** No element for which p holds is repeated. */
  predicate RepeatFree<T(==)>(s: seq<T>, p: T -> bool) {
    forall i, j :: 0 <= i < j < |s| && s[i] == s[j] ==> !p(s[i])
  }

  lemma RepeatFreeGrows<T>(s: seq<T>, x: T, p: T -> bool)
    ensures RepeatFree(s + [x], p) <==> RepeatFree(s, p) && (p(x) ==> x !in s)
  {
    var t := s + [x];
    assert t[|s|] == x && forall i :: 0 <= i < |s| ==> t[i] == s[i];
    if RepeatFree(t, p) {
      forall i | 0 <= i < |s| ensures s[i] == x ==> !p(x) {
        assert t[i] == s[i];
      }
      forall i, j | 0 <= i < j < |s| && s[i] == s[j] ensures !p(s[i]) {
        assert t[i] == t[j];
      }
    }
  }

  lemma NoDupGrows<T>(s: seq<T>, x: T)
    ensures NoDup(s + [x]) <==> NoDup(s) && x !in s
  {
    var t := s + [x];
    assert t[|s|] == x && forall i :: 0 <= i < |s| ==> t[i] == s[i];
    if NoDup(t) {
      forall i | 0 <= i < |s| ensures s[i] != x {
        assert t[i] != t[|s|];
      }
      forall i, j | 0 <= i < j < |s| ensures s[i] != s[j] {
        assert t[i] != t[j];
      }
    }
  }

  lemma {:induction false} KeepRepeats<T>(s: seq<T>, p: T -> bool)
    ensures NoDup(Keep(s, p)) <==> RepeatFree(s, p)
  {
    if s != [] {
      var front, last := s[..|s| - 1], s[|s| - 1];
      KeepRepeats(front, p);
      KeepMembers(front, p);
      RepeatFreeGrows(front, last, p);
      assert s == front + [last];
      assert Keep(s, p) == if p(last) then Keep(front, p) + [last] else Keep(front, p);
      if p(last) {
        NoDupGrows(Keep(front, p), last);
      }
    }
  }

  lemma {:induction false} KeepSame<T>(s: seq<T>, p: T -> bool, q: T -> bool)
    requires forall x :: x in s ==> (p(x) <==> q(x))
    ensures Keep(s, p) == Keep(s, q)
  {
    if s != [] {
      KeepSame(s[..|s| - 1], p, q);
    }
  }

  function FirstOf<T>(s: seq<T>, n: nat): seq<T> {
    if |s| <= n then s else s[..n]
  }

  /** The tests agree on every element met before p has kept n of them. */
  predicate AgreeUntil<T>(s: seq<T>, p: T -> bool, q: T -> bool, n: nat) {
    forall k :: 0 <= k < |s| && |Keep(s[..k], p)| < n ==> p(s[k]) == q(s[k])
  }

  lemma AgreementGrows<T>(s: seq<T>, x: T, p: T -> bool, q: T -> bool, n: nat)
    ensures AgreeUntil(s + [x], p, q, n) <==> AgreeUntil(s, p, q, n) && (|Keep(s, p)| < n ==> p(x) == q(x))
  {
    var t := s + [x];
    assert t[..|s|] == s && t[|s|] == x;
    assert forall k :: 0 <= k < |s| ==> t[..k] == s[..k] && t[k] == s[k];
    if AgreeUntil(t, p, q, n) {
      forall k | 0 <= k < |s| && |Keep(s[..k], p)| < n ensures p(s[k]) == q(s[k]) {
        assert t[..k] == s[..k];
      }
    }
  }

  /** Cut after n, what p keeps is what q keeps iff they agree until p has kept n elements. */
  lemma {:induction false} KeepAgrees<T>(s: seq<T>, p: T -> bool, q: T -> bool, n: nat)
    requires NoDup(s)
    ensures FirstOf(Keep(s, p), n) == FirstOf(Keep(s, q), n) <==> AgreeUntil(s, p, q, n)
  {
    if s != [] {
      var front, last := s[..|s| - 1], s[|s| - 1];
      assert s == front + [last];
      NoDupGrows(front, last);
      KeepAgrees(front, p, q, n);
      KeepMembers(front, p);
      KeepMembers(front, q);
      AgreementGrows(front, last, p, q, n);
      KeptApart(Keep(front, p), Keep(front, q), last, p(last), q(last), n);
    }
  }

  /** One new element at the end of two lists is seen only before the cut. */
  lemma KeptApart<T>(a: seq<T>, b: seq<T>, x: T, inA: bool, inB: bool, n: nat)
    requires x !in a && x !in b
    ensures FirstOf(a + (if inA then [x] else []), n) == FirstOf(b + (if inB then [x] else []), n) <==>
              FirstOf(a, n) == FirstOf(b, n) && (|a| < n ==> inA == inB)
  {
    var more, other := a + (if inA then [x] else []), b + (if inB then [x] else []);
    if |a| >= n {
      assert FirstOf(more, n) == a[..n] == FirstOf(a, n);
    }
    if |b| >= n {
      assert FirstOf(other, n) == b[..n] == FirstOf(b, n);
    }
    if FirstOf(more, n) == FirstOf(other, n) {
      if |a| < n && inA {
        assert more[|a|] == x;
      }
      if |b| < n && inB {
        assert other[|b|] == x;
      }
      if |a| < n && |b| < n {
        assert a == more[..|a|] && b == other[..|b|];
      }
    }
  }

  lemma NoDupJoins<T>(a: seq<T>, b: seq<T>)
    requires NoDup(a) && NoDup(b) && forall x :: x in a ==> x !in b
    ensures NoDup(a + b)
  {
    var s := a + b;
    forall i, j | 0 <= i < j < |s| ensures s[i] != s[j] {
      if i < |a| <= j {
        assert s[i] in a && s[j] == b[j - |a|];
      }
    }
  }

  function Each<A, B>(s: seq<A>, f: A -> B): (r: seq<B>)
    ensures |r| == |s|
  {
    if s == [] then [] else Each(s[..|s| - 1], f) + [f(s[|s| - 1])]
  }

  lemma {:induction false} EachAt<A, B>(s: seq<A>, f: A -> B)
    ensures forall k :: 0 <= k < |s| ==> Each(s, f)[k] == f(s[k])
  {
    if s != [] {
      EachAt(s[..|s| - 1], f);
    }
  }

  lemma {:induction false} EachJoins<A, B>(a: seq<A>, b: seq<A>, f: A -> B)
    ensures Each(a + b, f) == Each(a, f) + Each(b, f)
  {
    EachAt(a, f);
    EachAt(b, f);
    EachAt(a + b, f);
  }

  /** What f makes of the kept elements. */
  function Listed<A, B>(s: seq<A>, p: A -> bool, f: A -> B): seq<B> {
    Each(Keep(s, p), f)
  }

  lemma ListedJoins<A, B>(a: seq<A>, b: seq<A>, p: A -> bool, f: A -> B)
    ensures Listed(a + b, p, f) == Listed(a, p, f) + Listed(b, p, f)
  {
    KeepSplits(a, b, p);
    EachJoins(Keep(a, p), Keep(b, p), f);
  }

  lemma ListedNext<A, B>(s: seq<A>, x: A, p: A -> bool, f: A -> B)
    ensures Listed(s + [x], p, f) == Listed(s, p, f) + if p(x) then [f(x)] else []
  {
    var kept := Keep(s, p);
    assert (s + [x])[..|s|] == s;
    assert Keep(s + [x], p) == if p(x) then kept + [x] else kept;
    if p(x) {
      assert (kept + [x])[..|kept|] == kept;
    }
  }

  lemma ListedTwo<A, B>(s: seq<A>, x: A, y: A, p: A -> bool, f: A -> B)
    ensures Listed(s + [x, y], p, f) == Listed(s, p, f) + (if p(x) then [f(x)] else []) + (if p(y) then [f(y)] else [])
  {
    assert s + [x, y] == (s + [x]) + [y];
    ListedNext(s, x, p, f);
    ListedNext(s + [x], y, p, f);
  }

  lemma {:induction false} NoDupCounts<T>(s: seq<T>)
    requires NoDup(s)
    ensures |ToSet(s)| == |s|
  {
    if s != [] {
      var front, last := s[..|s| - 1], s[|s| - 1];
      NoDupCounts(front);
      assert last !in front;
      assert ToSet(s) == ToSet(front) + {last};
    }
  }

  lemma {:induction false} NoDupIsCountOne<T>(s: seq<T>)
    ensures NoDup(s) <==> forall x :: x in s ==> multiset(s)[x] == 1
  {
    if s != [] {
      var front, last := s[..|s| - 1], s[|s| - 1];
      NoDupIsCountOne(front);
      assert s == front + [last];
      assert multiset(s) == multiset(front) + multiset{last};
      assert last in front <==> last in multiset(front);
      if NoDup(s) {
        assert last !in front;
      }
      if forall x :: x in s ==> multiset(s)[x] == 1 {
        assert multiset(s)[last] == 1;
        forall x | x in front ensures multiset(front)[x] == 1 {
          assert x in s && x != last;
        }
      }
    }
  }

  lemma Permuted<T>(s: seq<T>, t: seq<T>)
    requires multiset(s) == multiset(t)
    ensures forall x :: x in s <==> x in t
    ensures |s| == |t|
    ensures NoDup(s) ==> NoDup(t)
  {
    forall x ensures x in s <==> x in t {
      assert x in s <==> x in multiset(s);
      assert x in t <==> x in multiset(t);
    }
    assert |multiset(s)| == |s| && |multiset(t)| == |t|;
    NoDupIsCountOne(s);
    NoDupIsCountOne(t);
  }

  lemma SetMembers<T>(s: seq<T>)
    ensures forall x :: x in ToSet(s) <==> x in s
  {
  }

  // ---------- loops that rebuild a value element by element ----------

  /** What a loop that starts from `init` holds after its first n elements. */
  function Fold<A, B>(xs: seq<A>, n: nat, init: B, step: (B, A) -> B): B
    requires n <= |xs|
  {
    if n == 0 then init else step(Fold(xs, n - 1, init, step), xs[n - 1])
  }

  lemma {:induction false} FoldKeeps<A, B>(xs: seq<A>, n: nat, init: B, step: (B, A) -> B, inv: (nat, B) -> bool)
    requires n <= |xs| && inv(0, init)
    requires forall b, i :: 0 <= i < n && inv(i, b) ==> inv(i + 1, step(b, xs[i]))
    ensures inv(n, Fold(xs, n, init, step))
  {
    if n > 0 {
      FoldKeeps(xs, n - 1, init, step, inv);
    }
  }

  // ---------- loops that append at most one element for each source ----------

  predicate Ascending(from: seq<nat>, n: nat) {
    && (forall k :: 0 <= k < |from| ==> from[k] < n)
    && forall k, l :: 0 <= k < l < |from| ==> from[k] < from[l]
  }

  /** Each element is made from one of n sources, in their order, and the sources left out are rightly skipped. */
  ghost predicate Drawn<S>(
    n: nat, sections: seq<S>, from: seq<nat>, made: (nat, nat, S) -> bool, skipped: nat -> bool)
  {
    && |from| == |sections| && Ascending(from, n)
    && (forall k :: 0 <= k < |sections| ==> made(from[k], k, sections[k]))
    && (forall i :: 0 <= i < n && i !in from ==> skipped(i))
  }

  /** Source i is skipped, or makes the next section. */
  ghost predicate OneStep<S>(
    i: nat, before: seq<S>, after: seq<S>, made: (nat, nat, S) -> bool, skipped: nat -> bool)
  {
    || (after == before && skipped(i))
    || (|after| == |before| + 1 && after[..|before|] == before && made(i, |before|, after[|before|]))
  }

  ghost predicate StepAt<A, S>(
    xs: seq<A>, i: nat, step: (seq<S>, A) -> seq<S>,
    made: (nat, nat, S) -> bool, skipped: nat -> bool)
  {
    i < |xs| && OneStep(i, Fold(xs, i, [], step), step(Fold(xs, i, [], step), xs[i]), made, skipped)
  }

  lemma DrawnGrows<S>(
      n: nat, before: seq<S>, after: seq<S>, from: seq<nat>,
      made: (nat, nat, S) -> bool, skipped: nat -> bool)
    returns (longer: seq<nat>)
    requires Drawn(n, before, from, made, skipped) && OneStep(n, before, after, made, skipped)
    ensures Drawn(n + 1, after, longer, made, skipped)
  {
    if after == before {
      longer := from;
    } else {
      longer := from + [n];
      assert forall k :: 0 <= k < |before| ==> after[k] == after[..|before|][k];
      forall i | 0 <= i < n + 1 && i !in longer ensures i < n && i !in from {
        assert longer[|from|] == n;
      }
    }
  }

  lemma {:induction false} FoldIsDrawn<A, S>(
      xs: seq<A>, n: nat, step: (seq<S>, A) -> seq<S>,
      made: (nat, nat, S) -> bool, skipped: nat -> bool)
    returns (from: seq<nat>)
    requires n <= |xs|
    requires forall i :: 0 <= i < n ==> StepAt(xs, i, step, made, skipped)
    ensures Drawn(n, Fold(xs, n, [], step), from, made, skipped)
  {
    if n == 0 {
      from := [];
    } else {
      var before := FoldIsDrawn(xs, n - 1, step, made, skipped);
      assert StepAt(xs, n - 1, step, made, skipped);
      from := DrawnGrows(n - 1, Fold(xs, n - 1, [], step), Fold(xs, n, [], step), before, made, skipped);
    }
  }

  // ---------- bodies that arrive in chunks ----------

  function Flat<T>(chunks: seq<seq<T>>): seq<T> {
    if chunks == [] then [] else Flat(chunks[..|chunks| - 1]) + chunks[|chunks| - 1]
  }

  lemma {:induction false} FlatGrows<T>(chunks: seq<seq<T>>, i: nat)
    requires i <= |chunks|
    ensures |Flat(chunks[..i])| <= |Flat(chunks)|
  {
    if i < |chunks| {
      FlatGrows(chunks[..|chunks| - 1], i);
      assert chunks[..|chunks| - 1][..i] == chunks[..i];
    } else {
      assert chunks[..i] == chunks;
    }
  }

  lemma FlatNext<T>(chunks: seq<seq<T>>, i: nat)
    requires i < |chunks|
    ensures Flat(chunks[..i + 1]) == Flat(chunks[..i]) + chunks[i]
  {
    assert chunks[..i + 1][..i] == chunks[..i];
  }

  // ---------- what `order_by(...).limit(1)` returns ----------

  predicate Orders<T(!new)>(s: set<T>, before: (T, T) -> bool) {
    && (forall a, b :: a in s && b in s ==> before(a, b) || before(b, a))
    && (forall a, b, c :: a in s && b in s && c in s && before(a, b) && before(b, c) ==> before(a, c))
  }

  predicate IsFirst<T(!new)>(s: set<T>, before: (T, T) -> bool, first: T) {
    first in s && forall x :: x in s ==> before(first, x)
  }

  lemma {:induction false} FirstExists<T(!new)>(s: set<T>, before: (T, T) -> bool)
    requires s != {} && Orders(s, before)
    ensures exists first :: IsFirst(s, before, first)
    decreases |s|
  {
    var x :| x in s;
    if s == {x} {
      assert IsFirst(s, before, x);
    } else {
      FirstExists(s - {x}, before);
      var other :| IsFirst(s - {x}, before, other);
      var first := if before(x, other) then x else other;
      forall y | y in s ensures before(first, y) {
        assert y == x || y in s - {x};
      }
      assert IsFirst(s, before, first);
    }
  }
}
