/**
 * The list operations the dashboard pages use on their data: JavaScript's
 * `Array.prototype.filter`, and a `map` that rewrites only the items a test
 * picks (`items.map(item => hit(item) ? f(item) : item)`).
 */
module Lists {

  /** `s.filter(p)`. */
  function Filter<T>(p: T -> bool, s: seq<T>): seq<T>
  {
    if |s| == 0 then [] else Filter(p, s[..|s| - 1]) + (if p(s[|s| - 1]) then [s[|s| - 1]] else [])
  }

  /** `a` is `b` with some items dropped and the rest kept in their order. */
  ghost predicate SubList<T>(a: seq<T>, b: seq<T>)
  {
    |a| == 0 ||
    (|b| > 0 &&
     ((a[|a| - 1] == b[|b| - 1] && SubList(a[..|a| - 1], b[..|b| - 1])) || SubList(a, b[..|b| - 1])))
  }

  /** The filtered list keeps the order of the original. */
  lemma {:induction false} FilterSubList<T>(p: T -> bool, s: seq<T>)
    ensures SubList(Filter(p, s), s)
  {
    if |s| > 0 {
      var init := s[..|s| - 1];
      FilterSubList(p, init);
      if p(s[|s| - 1]) {
        var r := Filter(p, s);
        assert r[..|r| - 1] == Filter(p, init) && r[|r| - 1] == s[|s| - 1];
      } else {
        assert Filter(p, s) == Filter(p, init);
      }
    }
  }

  /** Each item occurs in the filtered list as often as in the original when it passes, else never. */
  lemma {:induction false} FilterCount<T>(p: T -> bool, s: seq<T>)
    ensures forall x :: multiset(Filter(p, s))[x] == if p(x) then multiset(s)[x] else 0
  {
    if |s| > 0 {
      var init, last := s[..|s| - 1], s[|s| - 1];
      FilterCount(p, init);
      assert s == init + [last];
      assert multiset(s) == multiset(init) + multiset{last};
    } else {
      assert Filter(p, s) == [];
    }
  }

  /** An item is in the filtered list exactly when it is in the original and passes. */
  lemma FilterMembers<T>(p: T -> bool, s: seq<T>)
    ensures forall x :: x in Filter(p, s) <==> x in s && p(x)
  {
    FilterCount(p, s);
    forall x ensures x in Filter(p, s) <==> x in s && p(x) {
      assert x in Filter(p, s) <==> multiset(Filter(p, s))[x] > 0;
      assert x in s <==> multiset(s)[x] > 0;
    }
  }

  /** When every item passes, filtering changes nothing. */
  lemma {:induction false} FilterKeepsAll<T>(p: T -> bool, s: seq<T>)
    requires forall k :: 0 <= k < |s| ==> p(s[k])
    ensures Filter(p, s) == s
  {
    if |s| > 0 {
      FilterKeepsAll(p, s[..|s| - 1]);
      assert s[..|s| - 1] + [s[|s| - 1]] == s;
    }
  }

  /** Two tests that agree on every item filter alike. */
  lemma {:induction false} FilterSame<T>(p: T -> bool, q: T -> bool, s: seq<T>)
    requires forall x :: p(x) == q(x)
    ensures Filter(p, s) == Filter(q, s)
  {
    if |s| > 0 {
      FilterSame(p, q, s[..|s| - 1]);
    }
  }

  /** Filtering by `p` and then by `q` is filtering once by their conjunction `pq`. */
  lemma {:induction false} FilterTwice<T>(p: T -> bool, q: T -> bool, pq: T -> bool, s: seq<T>)
    requires forall x :: pq(x) == (p(x) && q(x))
    ensures Filter(q, Filter(p, s)) == Filter(pq, s)
  {
    if |s| > 0 {
      var init, last := s[..|s| - 1], s[|s| - 1];
      FilterTwice(p, q, pq, init);
      if p(last) {
        var f := Filter(p, s);
        assert f[..|f| - 1] == Filter(p, init) && f[|f| - 1] == last;
      } else {
        assert Filter(p, s) == Filter(p, init);
      }
    }
  }

  /** `s.map(x => hit(x) ? f(x) : x)`. */
  function MapWhere<T>(hit: T -> bool, f: T -> T, s: seq<T>): seq<T>
  {
    if |s| == 0 then [] else MapWhere(hit, f, s[..|s| - 1]) + [if hit(s[|s| - 1]) then f(s[|s| - 1]) else s[|s| - 1]]
  }

  /** The picked items are rewritten, every other item stays as it was, in place. */
  lemma {:induction false} MapWhereSpec<T>(hit: T -> bool, f: T -> T, s: seq<T>)
    ensures |MapWhere(hit, f, s)| == |s|
    ensures forall k :: 0 <= k < |s| ==>
      MapWhere(hit, f, s)[k] == if hit(s[k]) then f(s[k]) else s[k]
  {
    if |s| > 0 {
      var init := s[..|s| - 1];
      MapWhereSpec(hit, f, init);
      forall k | 0 <= k < |s| - 1 ensures MapWhere(hit, f, s)[k] == MapWhere(hit, f, init)[k] {
      }
    }
  }
}
