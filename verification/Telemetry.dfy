/** Nearest-rank percentiles: credence/telemetry.py. */
module Telemetry {
  import opened Tables

  predicate Sorted(s: seq<int>) { forall i, k :: 0 <= i < k < |s| ==> s[i] <= s[k] }

  /** How many samples do not exceed x. */
  function CountAtMost(s: seq<int>, x: int): nat {
    if s == [] then 0 else CountAtMost(s[..|s| - 1], x) + if s[|s| - 1] <= x then 1 else 0
  }

  /** At least pct percent of the samples do not exceed x. */
  predicate Covers(s: seq<int>, pct: int, x: int) { 100 * CountAtMost(s, x) >= pct * |s| }

  /** `percentile_ms`; None stands for its ValueError and for an index past the end. */
  function Percentile(sorted: seq<int>, pct: int): Option<int> {
    if sorted == [] then None
    else
      var i := Max(0, (pct * |sorted| + 99) / 100 - 1);
      if i < |sorted| then Some(sorted[i]) else None
  }

  lemma {:induction false} CountInSorted(s: seq<int>, k: nat, x: int)
    requires Sorted(s) && k < |s|
    ensures s[k] <= x ==> CountAtMost(s, x) >= k + 1
    ensures x < s[k] ==> CountAtMost(s, x) <= k
    ensures CountAtMost(s, x) <= |s|
  {
    if |s| > 1 {
      CountInSorted(s[..|s| - 1], if k < |s| - 1 then k else |s| - 2, x);
    }
  }

  lemma FirstIsLeast(s: seq<int>, y: int)
    requires Sorted(s) && y in s
    ensures s[0] <= y
  {
    var k :| 0 <= k < |s| && s[k] == y;
  }

  /** The percentile is the least sample that at least pct percent of the samples do not exceed;
      there is one exactly when there are samples and pct is at most 100. */
  lemma PercentileIsLeastCover(s: seq<int>, pct: int)
    requires Sorted(s)
    ensures Percentile(s, pct).Some? <==> s != [] && pct <= 100
    ensures Percentile(s, pct).Some? ==>
      var x := Percentile(s, pct).value;
      x in s && Covers(s, pct, x) && forall y :: y in s && Covers(s, pct, y) ==> x <= y
  {
    if s != [] {
      var n, rank := |s|, (pct * |s| + 99) / 100;
      assert pct * n <= 100 * rank < pct * n + 100;
      if pct <= 100 {
        var i := Max(0, rank - 1);
        assert pct * n <= 100 * n;
        CountInSorted(s, i, s[i]);
        forall y | y in s && Covers(s, pct, y) ensures s[i] <= y {
          FirstIsLeast(s, y);
          if y < s[i] {
            CountInSorted(s, i, y);
          }
        }
      } else {
        assert pct * n >= 101 * n;
      }
    }
  }
}
