/**
 * The string operations the Go and JavaScript code relies on, with their exact
 * edge cases: `strings.Split` / `String.prototype.split` with a literal separator,
 * `strings.Join` / `Array.prototype.join`, `strings.SplitN(s, sep, 2)`,
 * `strings.TrimSpace` / `trim`, `strings.Contains` / `includes`, `startsWith`,
 * a first-occurrence `Replace`, `replaceAll` of one character, ASCII lower-casing
 * and the `[...new Set(xs)]` de-duplication.
 */
module Strs {
  import opened Wrappers

  /** `d` occurs in `s` at index `i`. */
  predicate Occurs(s: string, d: string, i: int)
  {
    0 <= i && i + |d| <= |s| && s[i..i + |d|] == d
  }

  /** Index of the first occurrence of `d` in `s` at or after `from`. */
  function FindFrom(s: string, d: string, from: nat): (r: Option<nat>)
    decreases |s| - from
    ensures r.Some? ==> from <= r.value && Occurs(s, d, r.value)
    ensures r.Some? ==> forall k :: from <= k < r.value ==> !Occurs(s, d, k)
    ensures r.None? ==> forall k :: from <= k ==> !Occurs(s, d, k)
  {
    if from + |d| > |s| then None
    else if s[from..from + |d|] == d then Some(from)
    else FindFrom(s, d, from + 1)
  }

  /** `strings.Index` / `indexOf`: the first occurrence of `d` in `s`. */
  function IndexOf(s: string, d: string): (r: Option<nat>)
    ensures r.Some? ==> Occurs(s, d, r.value) && forall k :: 0 <= k < r.value ==> !Occurs(s, d, k)
    ensures r.None? ==> forall k :: !Occurs(s, d, k)
  {
    FindFrom(s, d, 0)
  }

  /** `strings.Contains` / `includes`. */
  predicate Contains(s: string, d: string)
  {
    IndexOf(s, d).Some?
  }

  /** `startsWith`. */
  predicate StartsWith(s: string, p: string)
  {
    p <= s
  }

  /** `strings.Split(s, d)` (and JavaScript `s.split(d)`) for a non-empty separator. */
  function SplitOn(s: string, d: string): (r: seq<string>)
    requires |d| > 0
    decreases |s|
    ensures |r| >= 1
  {
    match IndexOf(s, d)
    case None => [s]
    case Some(i) => [s[..i]] + SplitOn(s[i + |d|..], d)
  }

  /** Splitting on a one-character separator. */
  function Split(s: string, c: char): (r: seq<string>)
    ensures |r| >= 1
  {
    SplitOn(s, [c])
  }

  /** `strings.Join` / `join`. */
  function Join(parts: seq<string>, sep: string): string
  {
    if |parts| == 0 then ""
    else if |parts| == 1 then parts[0]
    else parts[0] + sep + Join(parts[1..], sep)
  }

  /** Index of the first `c` in `s`, or `|s|` when there is none. */
  function FirstIndex(s: string, c: char): (r: nat)
    ensures r <= |s| && (r < |s| ==> s[r] == c)
    ensures forall k :: 0 <= k < r ==> s[k] != c
  {
    if |s| == 0 || s[0] == c then 0 else 1 + FirstIndex(s[1..], c)
  }

  /** `strings.SplitN(s, sep, 2)` with a one-character separator: cut at the first occurrence only. */
  function SplitFirst(s: string, c: char): (r: seq<string>)
    ensures |r| == 1 <==> c !in s
    ensures |r| == 1 ==> r[0] == s
    ensures |r| == 2 ==> c !in r[0] && s == r[0] + [c] + r[1]
    ensures 1 <= |r| <= 2
  {
    var i := FirstIndex(s, c);
    if i == |s| then [s]
    else
      assert s == s[..i] + [c] + s[i + 1..];
      [s[..i], s[i + 1..]]
  }

  /**
   * The white space both Go's `strings.TrimSpace` and JavaScript's `trim`
   * remove: the ASCII spaces and controls, no-break space, the Unicode
   * space separators and the line and paragraph separators.
   */
  predicate IsSpace(c: char)
  {
    c == ' ' || c == '\t' || c == '\n' || c == '\r' || c == '\U{000B}' || c == '\U{000C}' ||
    c == '\U{00A0}' || c == '\U{1680}' || ('\U{2000}' <= c <= '\U{200A}') ||
    c == '\U{2028}' || c == '\U{2029}' || c == '\U{202F}' || c == '\U{205F}' || c == '\U{3000}'
  }

  function TrimLeft(s: string): string
  {
    if |s| > 0 && IsSpace(s[0]) then TrimLeft(s[1..]) else s
  }

  function TrimRight(s: string): string
  {
    if |s| > 0 && IsSpace(s[|s| - 1]) then TrimRight(s[..|s| - 1]) else s
  }

  /** `TrimLeft` drops exactly the leading white space. */
  lemma {:induction false} TrimLeftDrops(s: string)
    ensures var r := TrimLeft(s);
      |r| <= |s| && r == s[|s| - |r|..] &&
      (forall i :: 0 <= i < |s| - |r| ==> IsSpace(s[i])) &&
      (|r| > 0 ==> !IsSpace(r[0]))
  {
    if |s| > 0 && IsSpace(s[0]) {
      TrimLeftDrops(s[1..]);
    }
  }

  /** `TrimRight` drops exactly the trailing white space. */
  lemma {:induction false} TrimRightDrops(s: string)
    ensures var r := TrimRight(s);
      |r| <= |s| && r == s[..|r|] &&
      (forall i :: |r| <= i < |s| ==> IsSpace(s[i])) &&
      (|r| > 0 ==> !IsSpace(r[|r| - 1]))
  {
    if |s| > 0 && IsSpace(s[|s| - 1]) {
      TrimRightDrops(s[..|s| - 1]);
    }
  }

  /** `strings.TrimSpace` / `trim`: drop leading and trailing white space. */
  function Trim(s: string): (r: string)
    ensures |r| <= |s|
    ensures |r| > 0 ==> !IsSpace(r[0]) && !IsSpace(r[|r| - 1])
  {
    TrimLeftDrops(s);
    TrimRightDrops(TrimLeft(s));
    TrimRight(TrimLeft(s))
  }

  /** What `Trim` keeps is one contiguous slice of its input. */
  lemma TrimIsSlice(s: string)
    ensures exists i, j :: 0 <= i <= j <= |s| && Trim(s) == s[i..j]
  {
    var l := TrimLeft(s);
    var r := TrimRight(l);
    TrimLeftDrops(s);
    TrimRightDrops(l);
    var a := |s| - |l|;
    assert l == s[a..];
    assert r == l[..|r|];
    assert s[a..][..|r|] == s[a..a + |r|];
    assert 0 <= a <= a + |r| <= |s| && r == s[a..a + |r|];
  }

  /** `Trim` leaves nothing exactly when the input is all white space. */
  lemma TrimEmpty(s: string)
    ensures Trim(s) == "" <==> forall i :: 0 <= i < |s| ==> IsSpace(s[i])
  {
    var l := TrimLeft(s);
    var r := TrimRight(l);
    TrimLeftDrops(s);
    TrimRightDrops(l);
    var a := |s| - |l|;
    if r != "" {
      assert r[0] == l[0] == s[a];
    }
  }

  /** ASCII `toLowerCase` / `strings.ToLower`. */
  function LowerChar(c: char): char
  {
    if 'A' <= c <= 'Z' then (c as int - 'A' as int + 'a' as int) as char else c
  }

  function ToLower(s: string): (r: string)
    ensures |r| == |s|
    ensures forall i :: 0 <= i < |s| ==> r[i] == LowerChar(s[i])
  {
    if |s| == 0 then [] else [LowerChar(s[0])] + ToLower(s[1..])
  }

  /** `s.replace(old, new)` with a string pattern / `strings.Replace(s, old, new, 1)`. */
  function ReplaceFirst(s: string, pat: string, rep: string): (r: string)
  {
    match IndexOf(s, pat)
    case None => s
    case Some(i) => s[..i] + rep + s[i + |pat|..]
  }

  /** `s.replaceAll(a, b)` for one-character `a` and `b`. */
  function ReplaceChar(s: string, a: char, b: char): (r: string)
    ensures |r| == |s|
    ensures forall i :: 0 <= i < |s| ==> r[i] == (if s[i] == a then b else s[i])
  {
    if |s| == 0 then [] else [if s[0] == a then b else s[0]] + ReplaceChar(s[1..], a, b)
  }

  /** `[...new Set(xs)]`: keep each element's first occurrence, in order. */
  function Dedup<T(==)>(xs: seq<T>): (r: seq<T>)
  {
    if |xs| == 0 then []
    else
      var init := xs[..|xs| - 1];
      Dedup(init) + (if xs[|xs| - 1] in init then [] else [xs[|xs| - 1]])
  }

  /** The index of the first occurrence of `x` in `xs`, or `|xs|` when it does not occur. */
  function Position<T(==)>(xs: seq<T>, x: T): (r: nat)
    ensures r <= |xs| && (r < |xs| ==> xs[r] == x)
    ensures forall k :: 0 <= k < r ==> xs[k] != x
  {
    if |xs| == 0 || xs[0] == x then 0 else 1 + Position(xs[1..], x)
  }

  /** No element occurs twice. */
  predicate Distinct<T(==)>(xs: seq<T>)
  {
    forall i, j :: 0 <= i < j < |xs| ==> xs[i] != xs[j]
  }

  // ---- lemmas ----

  lemma {:induction false} DedupSameElements<T>(xs: seq<T>)
    ensures forall x :: x in Dedup(xs) <==> x in xs
  {
    if |xs| > 0 {
      var init := xs[..|xs| - 1];
      DedupSameElements(init);
      assert xs == init + [xs[|xs| - 1]];
    }
  }

  /** Appending an element keeps the first occurrences of the earlier ones, and gives a new one its own. */
  lemma PositionExtend<T>(init: seq<T>, y: T, x: T)
    ensures x in init ==> Position(init + [y], x) == Position(init, x) < |init|
    ensures x !in init && x == y ==> Position(init + [y], x) == |init|
  {
    var xs := init + [y];
    if x in init {
      assert xs[Position(init, x)] == x;
    } else if x == y {
      assert xs[|init|] == x;
    }
  }

  /**
   * `Dedup` keeps the order of first occurrences: of two kept elements, the
   * earlier one first occurs earlier in the input.
   */
  lemma {:induction false} DedupFirstOrder<T>(xs: seq<T>)
    ensures forall i, j :: 0 <= i < j < |Dedup(xs)| ==> Position(xs, Dedup(xs)[i]) < Position(xs, Dedup(xs)[j])
  {
    if |xs| > 0 {
      var init := xs[..|xs| - 1];
      var y := xs[|xs| - 1];
      assert xs == init + [y];
      DedupFirstOrder(init);
      DedupSameElements(init);
      var d := Dedup(init);
      var r := Dedup(xs);
      assert r == d + (if y in init then [] else [y]);
      forall i, j | 0 <= i < j < |r|
        ensures Position(xs, r[i]) < Position(xs, r[j])
      {
        assert r[i] == d[i] && d[i] in d;
        PositionExtend(init, y, d[i]);
        if j < |d| {
          assert r[j] == d[j] && d[j] in d;
          PositionExtend(init, y, d[j]);
          assert Position(init, d[i]) < Position(init, d[j]);
          assert Position(xs, d[i]) < Position(xs, d[j]);
        } else {
          assert y !in init && r[j] == y;
          PositionExtend(init, y, y);
          assert Position(xs, d[i]) < |init| == Position(xs, y);
        }
      }
    }
  }

  lemma {:induction false} DedupDistinct<T>(xs: seq<T>)
    ensures Distinct(Dedup(xs))
  {
    if |xs| > 0 {
      var init := xs[..|xs| - 1];
      DedupDistinct(init);
      DedupSameElements(init);
    }
  }

  /** A list without repeats holding exactly the members of a set is as long as the set is large. */
  lemma {:induction false} DistinctCard<T>(xs: seq<T>, s: set<T>)
    requires Distinct(xs) && forall x :: x in xs <==> x in s
    ensures |xs| == |s|
  {
    if |xs| > 0 {
      var n := |xs| - 1;
      var init, last := xs[..n], xs[n];
      forall x
        ensures x in init <==> x in s - {last}
      {
        if x in init {
          var i :| 0 <= i < n && init[i] == x;
          assert xs[i] == x;
        }
        if x in s - {last} {
          var i :| 0 <= i < |xs| && xs[i] == x;
          assert init[i] == x;
        }
      }
      DistinctCard(init, s - {last});
    }
  }

  /** On a list without repetitions, de-duplication changes nothing. */
  lemma {:induction false} DedupOfDistinct<T>(xs: seq<T>)
    requires Distinct(xs)
    ensures Dedup(xs) == xs
  {
    if |xs| > 0 {
      var init := xs[..|xs| - 1];
      DedupOfDistinct(init);
      assert xs == init + [xs[|xs| - 1]];
    }
  }

  /** De-duplication is idempotent. */
  lemma DedupIdempotent<T>(xs: seq<T>)
    ensures Dedup(Dedup(xs)) == Dedup(xs)
  {
    DedupDistinct(xs);
    DedupOfDistinct(Dedup(xs));
  }

  /** The members of a non-empty list are those of its front and its last element. */
  lemma Members<T>(xs: seq<T>)
    requires |xs| > 0
    ensures forall u :: u in xs <==> u in xs[..|xs| - 1] || u == xs[|xs| - 1]
  {
    assert xs == xs[..|xs| - 1] + [xs[|xs| - 1]];
  }

  lemma {:induction false} DedupLength<T>(xs: seq<T>)
    ensures |Dedup(xs)| <= |xs|
  {
    if |xs| > 0 {
      DedupLength(xs[..|xs| - 1]);
    }
  }

  /**
   * The separator `d` cannot be found in `p` nor across the end of `p`:
   * no occurrence lies inside `p` and no non-empty suffix of `p` begins `d`.
   */
  ghost predicate Clean(p: string, d: string)
  {
    (forall k :: !Occurs(p, d, k)) &&
    (forall k :: 0 <= k < |p| && k + |d| > |p| ==> !(p[k..] <= d))
  }

  lemma {:induction false} SplitOnAlone(p: string, d: string)
    requires |d| > 0 && forall k :: !Occurs(p, d, k)
    ensures SplitOn(p, d) == [p]
  {
  }

  lemma {:induction false} SplitOnCons(p: string, d: string, rest: string)
    requires |d| > 0 && Clean(p, d)
    ensures SplitOn(p + d + rest, d) == [p] + SplitOn(rest, d)
  {
    var s := p + d + rest;
    assert s[|p|..|p| + |d|] == d;
    assert Occurs(s, d, |p|);
    forall k | 0 <= k < |p|
      ensures !Occurs(s, d, k)
    {
      if k + |d| <= |p| {
        assert s[k..k + |d|] == p[k..k + |d|];
        assert !Occurs(p, d, k);
      } else {
        assert s[k..k + |d|][..|p| - k] == p[k..];
        assert !(p[k..] <= d);
      }
    }
    match IndexOf(s, d)
    case None =>
      assert false;
    case Some(i) =>
      assert i == |p|;
      assert s[..i] == p;
      assert s[i + |d|..] == rest;
  }

  /** `strings.Split` undoes `strings.Join` when no part can hide the separator. */
  lemma {:induction false} SplitJoin(parts: seq<string>, d: string)
    requires |d| > 0 && |parts| >= 1
    requires forall i :: 0 <= i < |parts| ==> Clean(parts[i], d)
    ensures SplitOn(Join(parts, d), d) == parts
  {
    if |parts| == 1 {
      SplitOnAlone(parts[0], d);
    } else {
      SplitOnCons(parts[0], d, Join(parts[1..], d));
      SplitJoin(parts[1..], d);
    }
  }

  /** For a one-character separator, a part is clean exactly when it lacks that character. */
  lemma CleanChar(p: string, c: char)
    requires c !in p
    ensures Clean(p, [c])
  {
    forall k | 0 <= k < |p| ensures !Occurs(p, [c], k) {
      assert p[k..k + 1] == [p[k]];
    }
  }

  /** A part that lacks the separator's first character is clean. */
  lemma CleanFirst(p: string, d: string)
    requires |d| > 0 && d[0] !in p
    ensures Clean(p, d)
  {
    forall k ensures !Occurs(p, d, k) {
      if 0 <= k && k + |d| <= |p| {
        assert p[k..k + |d|][0] == p[k];
      }
    }
    forall k | 0 <= k < |p| && k + |d| > |p| ensures !(p[k..] <= d) {
      assert p[k..][0] == p[k];
    }
  }

  lemma {:induction false} SplitJoinChar(parts: seq<string>, c: char)
    requires |parts| >= 1
    requires forall i :: 0 <= i < |parts| ==> c !in parts[i]
    ensures Split(Join(parts, [c]), c) == parts
  {
    forall i | 0 <= i < |parts| ensures Clean(parts[i], [c]) {
      CleanChar(parts[i], c);
    }
    SplitJoin(parts, [c]);
  }

  /**
   * A text between two copies of a character the separator lacks is clean
   * when the text itself does not contain the separator.
   */
  lemma CleanFramed(doc: string, d: string, c: char)
    requires |d| > 0 && c !in d && !Contains(doc, d)
    ensures Clean([c] + doc + [c], d)
  {
    var p := [c] + doc + [c];
    forall k ensures !Occurs(p, d, k) {
      FramedNoOccurrence(doc, d, c, k);
    }
    forall k | 0 <= k < |p| && k + |d| > |p| ensures !(p[k..] <= d) {
      var j := |p| - 1 - k;
      assert p[k..][j] == c && d[j] in d;
    }
  }

  lemma FramedNoOccurrence(doc: string, d: string, c: char, k: int)
    requires |d| > 0 && c !in d && !Contains(doc, d)
    ensures !Occurs([c] + doc + [c], d, k)
  {
    var p := [c] + doc + [c];
    if 0 <= k && k + |d| <= |p| {
      var w := p[k..k + |d|];
      if k == 0 {
        assert w[0] == c && d[0] in d;
      } else if k + |d| == |p| {
        assert w[|d| - 1] == c && d[|d| - 1] in d;
      } else {
        assert w == doc[k - 1..k - 1 + |d|];
        assert !Occurs(doc, d, k - 1);
      }
    }
  }

  /** The separator, a character, the separator and the character again split into an empty part and two one-character parts. */
  lemma SplitTwice(d: string, c: char)
    requires |d| > 0 && d[0] != c
    ensures SplitOn(d + [c] + d + [c], d) == ["", [c], [c]]
  {
    var parts := ["", [c], [c]];
    forall k | 0 <= k < 3 ensures Clean(parts[k], d) {
      if k > 0 {
        CleanFirst(parts[k], d);
      }
    }
    SplitJoin(parts, d);
    JoinThree(d, c);
  }

  lemma JoinThree(d: string, c: char)
    ensures Join(["", [c], [c]], d) == d + [c] + d + [c]
  {
    var parts := ["", [c], [c]];
    var one: seq<string> := [[c]];
    assert parts[1..][1..] == one;
    assert Join(parts[1..], d) == [c] + d + [c];
  }

  /** `strings.Replace(s, old, new, 1)` when `s` starts with `old`. */
  lemma ReplaceFirstAtStart(pat: string, rep: string, rest: string)
    ensures ReplaceFirst(pat + rest, pat, rep) == rep + rest
  {
    var s := pat + rest;
    assert s[..|pat|] == pat;
    assert Occurs(s, pat, 0);
    assert s[|pat|..] == rest;
  }

  /** A text contains whatever is spelled out inside it. */
  lemma ContainsInside(a: string, d: string, b: string)
    ensures Contains(a + d + b, d)
  {
    var s := a + d + b;
    assert s[|a|..|a| + |d|] == d;
    assert Occurs(s, d, |a|);
  }

  /** The first occurrence is replaced: when none starts inside `a`, the one after `a` is. */
  lemma ReplaceFirstAt(a: string, pat: string, rep: string, b: string)
    requires forall k :: 0 <= k < |a| ==> !Occurs(a + pat + b, pat, k)
    ensures ReplaceFirst(a + pat + b, pat, rep) == a + rep + b
  {
    var s := a + pat + b;
    assert s[|a|..|a| + |pat|] == pat;
    assert Occurs(s, pat, |a|);
    var i := IndexOf(s, pat).value;
    assert i == |a|;
    assert s[..|a|] == a && s[|a| + |pat|..] == b;
  }

  /** With no occurrence of the pattern, replacing changes nothing. */
  lemma ReplaceFirstAbsent(s: string, pat: string, rep: string)
    requires forall k :: !Occurs(s, pat, k)
    ensures ReplaceFirst(s, pat, rep) == s
  {
  }

  /** Leading white space is trimmed off a text that starts and ends with other characters. */
  lemma {:induction false} TrimPadded(ind: string, t: string)
    requires forall i :: 0 <= i < |ind| ==> IsSpace(ind[i])
    requires |t| > 0 && !IsSpace(t[0]) && !IsSpace(t[|t| - 1])
    ensures Trim(ind + t) == t
  {
    TrimLeftPadded(ind, t);
  }

  lemma {:induction false} TrimLeftPadded(ind: string, t: string)
    requires forall i :: 0 <= i < |ind| ==> IsSpace(ind[i])
    requires |t| > 0 && !IsSpace(t[0])
    ensures TrimLeft(ind + t) == t
  {
    if |ind| > 0 {
      assert (ind + t)[1..] == ind[1..] + t;
      TrimLeftPadded(ind[1..], t);
    } else {
      assert ind + t == t;
    }
  }

  /** Iterating over a Go map or set: some order, each element once. */
  method Enumerate<T>(s: set<T>) returns (r: seq<T>)
    ensures Distinct(r)
    ensures forall x :: x in r <==> x in s
  {
    var rest := s;
    r := [];
    while rest != {}
      invariant rest <= s
      invariant Distinct(r)
      invariant forall x :: x in r <==> x in s && x !in rest
      decreases |rest|
    {
      var x :| x in rest;
      r := r + [x];
      rest := rest - {x};
    }
  }
}
