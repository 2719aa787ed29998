/**
 * The progress arithmetic both migration engines share: before table `i` of
 * `n` a run reports `float64(i) / float64(n) * 100`, and the values it
 * reports never go back.
 */
module Progress {

  /** The progress before table `i` of `n`: `float64(i) / float64(n) * 100`. */
  function Pct(i: nat, n: nat): real
    requires i < n
  {
    (i as real) / (n as real) * 100.0
  }

  /** Progress values grow from table to table and stay below 100. */
  lemma PctBounds(i: nat, n: nat)
    requires i < n
    ensures 0.0 <= Pct(i, n) < 100.0
    ensures i + 1 < n ==> Pct(i, n) < Pct(i + 1, n)
  {
    var q := (i as real) / (n as real);
    assert q * (n as real) == i as real;
    assert q < 1.0;
    if i + 1 < n {
      var q' := ((i + 1) as real) / (n as real);
      assert q' * (n as real) == (i + 1) as real;
      assert q < q';
    }
  }

  /** Every value is at most every later one. */
  predicate Ascending(xs: seq<real>)
  {
    forall i, j :: 0 <= i < j < |xs| ==> xs[i] <= xs[j]
  }

  /** Appending values no smaller than everything before keeps a sequence ascending. */
  lemma AppendAscending(m: seq<real>, tail: seq<real>, p: real)
    requires Ascending(m) && Ascending(tail)
    requires forall k :: 0 <= k < |m| ==> m[k] <= p
    requires forall k :: 0 <= k < |tail| ==> p <= tail[k]
    ensures Ascending(m + tail)
  {
    var s := m + tail;
    forall i, j | 0 <= i < j < |s| ensures s[i] <= s[j] {
      if j < |m| {
        assert s[i] == m[i] && s[j] == m[j];
      } else if i >= |m| {
        assert s[i] == tail[i - |m|] && s[j] == tail[j - |m|];
      } else {
        assert s[i] == m[i] && s[j] == tail[j - |m|];
      }
    }
  }

  /**
   * One more table: appending its value `p`, or nothing, to values in `[0, p)`
   * keeps them ascending and puts them all in `[0, bound)` for any bound above `p`.
   */
  lemma ExtendMarks(m: seq<real>, tail: seq<real>, p: real, bound: real)
    requires Ascending(m) && (tail == [] || tail == [p])
    requires forall k :: 0 <= k < |m| ==> 0.0 <= m[k] < p
    requires 0.0 <= p < bound
    ensures Ascending(m + tail)
    ensures forall k :: 0 <= k < |m + tail| ==> 0.0 <= (m + tail)[k] < bound
  {
    AppendAscending(m, tail, p);
    forall k | 0 <= k < |m + tail| ensures 0.0 <= (m + tail)[k] < bound {
      if k < |m| {
        assert (m + tail)[k] == m[k];
      } else {
        assert (m + tail)[k] == p;
      }
    }
  }


  /**
   * The values a run writes before entry `i` of `visited`: `Pct(j, n)` for
   * each earlier entry `j` it goes into, where `n` counts all the entries.
   */
  function Marks(visited: seq<bool>, i: nat): seq<real>
    requires i <= |visited|
  {
    if i == 0 then [] else Marks(visited, i - 1) + (if visited[i - 1] then [Pct(i - 1, |visited|)] else [])
  }

  /** All the values of a completed run: 0 after counting, one per entry gone into, then 100. */
  function RunMarks(visited: seq<bool>): seq<real>
  {
    [0.0] + Marks(visited, |visited|) + [100.0]
  }

  /** Writing `step` after `log + marks` is writing `marks + step` after `log`. */
  lemma LogAppend(log: seq<real>, marks: seq<real>, step: seq<real>)
    ensures log + marks + step == log + (marks + step)
  {
  }

  /** A log followed by 0, the marks of a whole run and 100 is that log followed by the run's values. */
  lemma LogRun(log: seq<real>, visited: seq<bool>)
    ensures log + [0.0] + Marks(visited, |visited|) + [100.0] == log + RunMarks(visited)
  {
  }

  /** The values before entry `i` are ascending, at least 0, and below the value of entry `i` (100 at the end). */
  lemma {:induction false} MarksAscending(visited: seq<bool>, i: nat)
    requires i <= |visited|
    ensures Ascending(Marks(visited, i))
    ensures forall k :: 0 <= k < |Marks(visited, i)| ==>
      0.0 <= Marks(visited, i)[k] < (if i < |visited| then Pct(i, |visited|) else 100.0)
  {
    if i > 0 {
      var n := |visited|;
      var p := Pct(i - 1, n);
      var tail: seq<real> := if visited[i - 1] then [p] else [];
      assert Marks(visited, i) == Marks(visited, i - 1) + tail;
      MarksAscending(visited, i - 1);
      PctBounds(i - 1, n);
      ExtendMarks(Marks(visited, i - 1), tail, p, if i < n then Pct(i, n) else 100.0);
    }
  }

  /** A completed run reports values that never go back, from 0 to 100. */
  lemma RunMarksAscending(visited: seq<bool>)
    ensures Ascending(RunMarks(visited))
    ensures RunMarks(visited)[0] == 0.0 && RunMarks(visited)[|RunMarks(visited)| - 1] == 100.0
    ensures forall k :: 0 <= k < |RunMarks(visited)| ==> 0.0 <= RunMarks(visited)[k] <= 100.0
  {
    var m := Marks(visited, |visited|);
    MarksAscending(visited, |visited|);
    AppendAscending([0.0], m, 0.0);
    forall k | 0 <= k < |[0.0] + m| ensures ([0.0] + m)[k] <= 100.0 {
      if k > 0 {
        assert ([0.0] + m)[k] == m[k - 1];
      }
    }
    AppendAscending([0.0] + m, [100.0], 100.0);
    assert RunMarks(visited) == ([0.0] + m) + [100.0];
    forall k | 0 <= k < |RunMarks(visited)| ensures 0.0 <= RunMarks(visited)[k] <= 100.0 {
      if 0 < k < |RunMarks(visited)| - 1 {
        assert RunMarks(visited)[k] == m[k - 1];
      }
    }
  }

  /** A run that goes into every entry writes one value per entry. */
  lemma {:induction false} MarksEvery(visited: seq<bool>, i: nat)
    requires i <= |visited| && forall j :: 0 <= j < |visited| ==> visited[j]
    ensures |Marks(visited, i)| == i
  {
    if i > 0 {
      MarksEvery(visited, i - 1);
    }
  }
}
