/** The 95th percentile of a list of samples. */
module Percentile {

  function InsertSample(x: real, sorted: seq<real>): seq<real> {
    if sorted == [] || x <= sorted[0] then [x] + sorted else [sorted[0]] + InsertSample(x, sorted[1..])
  }

  function Sorted(samples: seq<real>): seq<real> {
    if samples == [] then [] else InsertSample(samples[0], Sorted(samples[1..]))
  }

  ghost predicate Ascending(s: seq<real>) { forall i, j | 0 <= i < j < |s| :: s[i] <= s[j] }

  lemma {:induction false} InsertKeepsAll(x: real, sorted: seq<real>)
    ensures multiset(InsertSample(x, sorted)) == multiset(sorted) + multiset{x}
  {
    if sorted != [] && sorted[0] < x {
      InsertKeepsAll(x, sorted[1..]);
      assert sorted == [sorted[0]] + sorted[1..];
    }
  }

  lemma {:induction false} InsertKeepsOrder(x: real, sorted: seq<real>)
    requires Ascending(sorted)
    ensures Ascending(InsertSample(x, sorted))
    ensures InsertSample(x, sorted)[0] == if sorted == [] || x <= sorted[0] then x else sorted[0]
  {
    if sorted != [] && sorted[0] < x {
      InsertKeepsOrder(x, sorted[1..]);
      var rest := InsertSample(x, sorted[1..]);
      assert sorted[0] <= rest[0];
      assert forall k | 0 < k < |rest| :: rest[0] <= rest[k];
    }
  }

  lemma {:induction false} SortedIsSorted(samples: seq<real>)
    ensures Ascending(Sorted(samples)) && multiset(Sorted(samples)) == multiset(samples)
    ensures |Sorted(samples)| == |samples|
  {
    if samples != [] {
      SortedIsSorted(samples[1..]);
      InsertKeepsOrder(samples[0], Sorted(samples[1..]));
      InsertKeepsAll(samples[0], Sorted(samples[1..]));
      assert samples == [samples[0]] + samples[1..];
    }
    assert |multiset(Sorted(samples))| == |multiset(samples)|;
  }

  function AtMost(s: seq<real>, v: real): nat {
    if s == [] then 0 else (if s[0] <= v then 1 else 0) + AtMost(s[1..], v)
  }

  function Below(s: seq<real>, v: real): nat {
    if s == [] then 0 else (if s[0] < v then 1 else 0) + Below(s[1..], v)
  }

  /** The places of the samples up to `v`, and of those below it. */
  function PlacesAtMost(s: seq<real>, v: real): set<int> { set k | 0 <= k < |s| && s[k] <= v }

  function PlacesBelow(s: seq<real>, v: real): set<int> { set k | 0 <= k < |s| && s[k] < v }

  lemma {:induction false} CountsOfLast(s: seq<real>, x: real, v: real)
    ensures AtMost(s + [x], v) == AtMost(s, v) + if x <= v then 1 else 0
    ensures Below(s + [x], v) == Below(s, v) + if x < v then 1 else 0
  {
    if s != [] {
      CountsOfLast(s[1..], x, v);
      assert (s + [x])[1..] == s[1..] + [x];
    }
  }

  /** The two functions count samples. */
  lemma {:induction false} CountsAre(s: seq<real>, v: real)
    ensures AtMost(s, v) == |PlacesAtMost(s, v)| && Below(s, v) == |PlacesBelow(s, v)|
  {
    if s == [] {
      assert PlacesAtMost(s, v) == {} && PlacesBelow(s, v) == {};
    } else {
      var last, init := |s| - 1, s[..|s| - 1];
      CountsAre(init, v);
      assert s == init + [s[last]];
      CountsOfLast(init, s[last], v);
      PlacesAtMostOfLast(init, s[last], v);
      PlacesBelowOfLast(init, s[last], v);
      hide AtMost, Below, PlacesAtMost, PlacesBelow;
    }
  }

  lemma {:induction false} PlacesAtMostOfLast(s: seq<real>, x: real, v: real)
    ensures |PlacesAtMost(s + [x], v)| == |PlacesAtMost(s, v)| + if x <= v then 1 else 0
  {
    assert PlacesAtMost(s + [x], v) == PlacesAtMost(s, v) + if x <= v then {|s|} else {};
  }

  lemma {:induction false} PlacesBelowOfLast(s: seq<real>, x: real, v: real)
    ensures |PlacesBelow(s + [x], v)| == |PlacesBelow(s, v)| + if x < v then 1 else 0
  {
    assert PlacesBelow(s + [x], v) == PlacesBelow(s, v) + if x < v then {|s|} else {};
  }

  lemma {:induction false} InsertCounts(x: real, sorted: seq<real>, v: real)
    ensures AtMost(InsertSample(x, sorted), v) == AtMost([x] + sorted, v)
    ensures Below(InsertSample(x, sorted), v) == Below([x] + sorted, v)
  {
    assert ([x] + sorted)[1..] == sorted;
    if sorted != [] && sorted[0] < x {
      InsertCounts(x, sorted[1..], v);
      assert ([x] + sorted[1..])[1..] == sorted[1..];
      assert ([sorted[0]] + InsertSample(x, sorted[1..]))[1..] == InsertSample(x, sorted[1..]);
    }
  }

  lemma {:induction false} SortedCounts(samples: seq<real>, v: real)
    ensures AtMost(Sorted(samples), v) == AtMost(samples, v) && Below(Sorted(samples), v) == Below(samples, v)
  {
    if samples != [] {
      SortedCounts(samples[1..], v);
      InsertCounts(samples[0], Sorted(samples[1..]), v);
      assert ([samples[0]] + Sorted(samples[1..]))[1..] == Sorted(samples[1..]);
    }
  }

  lemma {:induction false} RankCounts(s: seq<real>, k: nat, v: real)
    requires Ascending(s) && k < |s| && v == s[k]
    ensures k + 1 <= AtMost(s, v) && Below(s, v) <= k
  {
    if k == 0 {
      NoneBelow(s, v);
    } else {
      RankCounts(s[1..], k - 1, v);
    }
  }

  lemma {:induction false} NoneBelow(s: seq<real>, v: real)
    requires forall k | 0 <= k < |s| :: v <= s[k]
    ensures Below(s, v) == 0
  {
    if s != [] {
      NoneBelow(s[1..], v);
    }
  }

  /** The least whole number that is at least 95 hundredths of `n`, less one. */
  function Rank(n: nat): int { (95 * n + 99) / 100 - 1 }

  /** The rank of the 95th percentile is the least one with 95 percent of the samples up to it. */
  lemma {:induction false} RankIsLeast(n: nat, k: int)
    ensures Rank(n) <= k <==> 95 * n <= 100 * (k + 1)
  {
  }

  /** A sample such that at least 95 percent of the samples are at most it, and fewer than 95 percent are below it. */
  method P95(samples: seq<real>) returns (v: real)
    ensures samples == [] ==> v == 0.0
    ensures samples != [] ==>
              v in samples && 100 * AtMost(samples, v) >= 95 * |samples|
              && 100 * Below(samples, v) < 95 * |samples|
  {
    if samples == [] {
      return 0.0;
    }
    hide Sorted;
    SortedIsSorted(samples);
    var ordered := Sorted(samples);
    var index := if Rank(|ordered|) < 0 then 0 else Rank(|ordered|);
    v := ordered[index];
    assert v in multiset(ordered);
    RankCounts(ordered, index, v);
    SortedCounts(samples, v);
  }
}
