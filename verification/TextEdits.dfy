/** Edits recorded against one text and applied to it from the right. */
module TextEdits {

  /** Replace the characters `start..end` by `text`. */
  datatype Edit = Edit(start: nat, end: nat, text: string) {
    function Delta(): int { |text| - (end - start) }
  }

  function Clamp(n: nat, length: nat): (m: nat)
    ensures m <= length && (n <= length ==> m == n)
  {
    if n <= length then n else length
  }

  /** One edit, with slices that stop at the end of the text. */
  function ApplyOne(s: string, e: Edit): string {
    s[..Clamp(e.start, |s|)] + e.text + s[Clamp(e.end, |s|)..]
  }

  function ApplyInOrder(s: string, edits: seq<Edit>): string
    decreases |edits|
  {
    if edits == [] then s else ApplyInOrder(ApplyOne(s, edits[0]), edits[1..])
  }

  // ---------------------------------------------------------------- a stable sort, last start first

  function InsertEdit(e: Edit, sorted: seq<Edit>): seq<Edit> {
    if sorted == [] || sorted[0].start <= e.start then [e] + sorted else [sorted[0]] + InsertEdit(e, sorted[1..])
  }

  function SortDescending(edits: seq<Edit>): (r: seq<Edit>)
    ensures |r| == |edits|
  {
    if edits == [] then [] else
      var rest := SortDescending(edits[1..]);
      InsertKeeps(edits[0], rest);
      InsertEdit(edits[0], rest)
  }

  ghost predicate Descending(edits: seq<Edit>) {
    forall i, j | 0 <= i < j < |edits| :: edits[j].start <= edits[i].start
  }

  lemma {:induction false} InsertKeeps(e: Edit, sorted: seq<Edit>)
    ensures |InsertEdit(e, sorted)| == |sorted| + 1
    ensures multiset(InsertEdit(e, sorted)) == multiset(sorted) + multiset{e}
  {
    if sorted == [] || sorted[0].start <= e.start {
    } else {
      InsertKeeps(e, sorted[1..]);
      assert sorted == [sorted[0]] + sorted[1..];
    }
  }

  lemma {:induction false} InsertSorts(e: Edit, sorted: seq<Edit>)
    requires Descending(sorted)
    ensures Descending(InsertEdit(e, sorted))
    ensures forall x | x in InsertEdit(e, sorted) :: x == e || x in sorted
  {
    if sorted == [] || sorted[0].start <= e.start {
    } else {
      InsertSorts(e, sorted[1..]);
      var r := InsertEdit(e, sorted[1..]);
      forall k | 0 <= k < |r|
        ensures r[k].start <= sorted[0].start
      {
        assert r[k] in r;
        assert r[k] in sorted[1..] ==> exists j :: 0 < j < |sorted| && sorted[j] == r[k];
      }
    }
  }

  /** The edits in the order in which they are applied: by start, the last one first, and all of them. */
  lemma {:induction false} SortedDescending(edits: seq<Edit>)
    ensures Descending(SortDescending(edits)) && multiset(SortDescending(edits)) == multiset(edits)
  {
    if edits != [] {
      SortedDescending(edits[1..]);
      InsertKeeps(edits[0], SortDescending(edits[1..]));
      InsertSorts(edits[0], SortDescending(edits[1..]));
      assert edits == [edits[0]] + edits[1..];
    }
  }

  function StartingAt(edits: seq<Edit>, p: nat): seq<Edit> {
    if edits == [] then [] else (if edits[0].start == p then [edits[0]] else []) + StartingAt(edits[1..], p)
  }

  lemma {:induction false} StartingAtCons(e: Edit, edits: seq<Edit>, p: nat)
    ensures StartingAt([e] + edits, p) == if e.start == p then [e] + StartingAt(edits, p) else StartingAt(edits, p)
  {
    assert ([e] + edits)[1..] == edits;
  }

  lemma {:induction false} InsertIsStable(e: Edit, sorted: seq<Edit>, p: nat)
    ensures StartingAt(InsertEdit(e, sorted), p) == if e.start == p then [e] + StartingAt(sorted, p)
            else StartingAt(sorted, p)
  {
    hide StartingAt;
    if sorted == [] || sorted[0].start <= e.start {
      StartingAtCons(e, sorted, p);
    } else {
      assert sorted == [sorted[0]] + sorted[1..];
      InsertIsStable(e, sorted[1..], p);
      StartingAtCons(sorted[0], InsertEdit(e, sorted[1..]), p);
      StartingAtCons(sorted[0], sorted[1..], p);
    }
  }

  /** Edits with the same start are applied in the order in which they were recorded. */
  lemma {:induction false} SortIsStable(edits: seq<Edit>, p: nat)
    ensures StartingAt(SortDescending(edits), p) == StartingAt(edits, p)
  {
    if edits != [] {
      SortIsStable(edits[1..], p);
      InsertIsStable(edits[0], SortDescending(edits[1..]), p);
      StartingAtCons(edits[0], edits[1..], p);
      assert edits == [edits[0]] + edits[1..];
    }
  }

  // ---------------------------------------------------------------- the simultaneous splice

  function Reversed(edits: seq<Edit>): (r: seq<Edit>)
    ensures |r| == |edits|
    ensures forall k | 0 <= k < |r| :: r[k] == edits[|edits| - 1 - k]
  {
    seq(|edits|, k requires 0 <= k < |edits| => edits[|edits| - 1 - k])
  }

  /** Each edit ends before the next one starts, and all are within the text. */
  ghost predicate Chained(edits: seq<Edit>, from: nat, length: nat) {
    && from <= length
    && (forall k | 0 <= k < |edits| :: from <= edits[k].start <= edits[k].end <= length)
    && (forall j, k | 0 <= j < k < |edits| :: edits[j].end <= edits[k].start)
  }

  /** One pass over the text from `from`: gaps are copied, and every edited stretch is replaced. */
  function Splice(s: string, edits: seq<Edit>, from: nat): string
    requires Chained(edits, from, |s|)
  {
    if edits == [] then s[from..]
    else s[from..edits[0].start] + edits[0].text + Splice(s, edits[1..], edits[0].end)
  }

  /** The last edit may be made first. */
  lemma {:induction false} SpliceLast(s: string, edits: seq<Edit>, e: Edit, from: nat)
    requires Chained(edits + [e], from, |s|)
    ensures Chained(edits, from, |ApplyOne(s, e)|)
    ensures Splice(s, edits + [e], from) == Splice(ApplyOne(s, e), edits, from)
  {
    var t := ApplyOne(s, e);
    assert (edits + [e])[|edits|] == e;
    assert forall k | 0 <= k < |edits| :: (edits + [e])[k] == edits[k];
    if edits == [] {
      assert t[from..] == s[from..e.start] + e.text + s[e.end..];
      assert (edits + [e])[1..] == [];
    } else {
      assert (edits + [e])[1..] == edits[1..] + [e];
      assert t[from..edits[0].start] == s[from..edits[0].start];
      assert forall k | 0 <= k < |edits| - 1 :: edits[1..][k] == edits[k + 1];
      assert Chained(edits[1..] + [e], edits[0].end, |s|) by {
        assert forall k | 0 <= k < |edits[1..] + [e]| :: (edits[1..] + [e])[k] == (edits + [e])[k + 1];
      }
      SpliceLast(s, edits[1..], e, edits[0].end);
    }
  }

  /** Applying edits from the right is the one-pass splice of the text they were recorded against. */
  lemma {:induction false} ApplyIsSplice(s: string, edits: seq<Edit>)
    requires Chained(Reversed(edits), 0, |s|)
    ensures ApplyInOrder(s, edits) == Splice(s, Reversed(edits), 0)
    decreases |edits|
  {
    if edits == [] {
      assert s[0..] == s;
    } else {
      var rest := Reversed(edits[1..]);
      assert Reversed(edits) == rest + [edits[0]];
      SpliceLast(s, rest, edits[0], 0);
      ApplyIsSplice(ApplyOne(s, edits[0]), edits[1..]);
    }
  }

  /** Edit `b`, recorded after `a`, does not touch what `a` puts in; at the start of `a` it may only insert. */
  predicate Fits(a: Edit, b: Edit) {
    if a.start < b.start then a.end <= b.start else b.end <= a.start
  }

  ghost predicate Compatible(edits: seq<Edit>) { forall j, k | 0 <= j < k < |edits| :: Fits(edits[j], edits[k]) }

  ghost predicate Within(edits: seq<Edit>, length: nat) {
    forall k | 0 <= k < |edits| :: edits[k].start <= edits[k].end <= length
  }

  /** From the right, each edit ends before the one applied before it starts. */
  ghost predicate FromRight(edits: seq<Edit>) { forall j, k | 0 <= j < k < |edits| :: edits[k].end <= edits[j].start }

  ghost predicate FitsAll(e: Edit, edits: seq<Edit>) { forall k | 0 <= k < |edits| :: Fits(e, edits[k]) }

  ghost predicate EndBy(edits: seq<Edit>, bound: nat) { forall k | 0 <= k < |edits| :: edits[k].end <= bound }

  lemma {:induction false} EndByCons(e: Edit, edits: seq<Edit>, bound: nat)
    ensures EndBy([e] + edits, bound) <==> e.end <= bound && EndBy(edits, bound)
  {
    var all := [e] + edits;
    assert all[0] == e && forall k | 0 <= k < |edits| :: all[k + 1] == edits[k];
  }

  lemma {:induction false} FitsAllCons(e: Edit, f: Edit, edits: seq<Edit>)
    ensures FitsAll(e, [f] + edits) <==> Fits(e, f) && FitsAll(e, edits)
  {
    hide Fits;
    var all := [f] + edits;
    assert all[0] == f && forall k | 0 <= k < |edits| :: all[k + 1] == edits[k];
  }

  lemma {:induction false} FromRightCons(e: Edit, edits: seq<Edit>)
    ensures FromRight([e] + edits) <==> FromRight(edits) && EndBy(edits, e.start)
  {
    var all := [e] + edits;
    assert forall k | 0 <= k < |edits| :: all[k + 1] == edits[k];
    if FromRight(all) {
      forall j, k | 0 <= j < k < |edits|
        ensures edits[k].end <= edits[j].start
      {
        assert all[k + 1].end <= all[j + 1].start;
      }
      forall k | 0 <= k < |edits|
        ensures edits[k].end <= e.start
      {
        assert all[k + 1].end <= all[0].start;
      }
    }
  }

  lemma {:induction false} InsertEndsBy(e: Edit, sorted: seq<Edit>, bound: nat)
    ensures EndBy(InsertEdit(e, sorted), bound) <==> e.end <= bound && EndBy(sorted, bound)
  {
    hide EndBy;
    if sorted == [] || sorted[0].start <= e.start {
      EndByCons(e, sorted, bound);
    } else {
      InsertEndsBy(e, sorted[1..], bound);
      EndByCons(sorted[0], InsertEdit(e, sorted[1..]), bound);
      EndByCons(sorted[0], sorted[1..], bound);
      assert sorted == [sorted[0]] + sorted[1..];
    }
  }

  lemma {:induction false} InsertFits(e: Edit, sorted: seq<Edit>)
    requires Descending(sorted)
    ensures FromRight(InsertEdit(e, sorted)) <==> FromRight(sorted) && FitsAll(e, sorted)
  {
    if sorted == [] || sorted[0].start <= e.start {
      FromRightCons(e, sorted);
      assert FitsAll(e, sorted) <==> EndBy(sorted, e.start);
    } else {
      var rest := sorted[1..];
      assert Descending(rest) && sorted == [sorted[0]] + rest;
      hide FromRight, EndBy, FitsAll, Descending;
      InsertFits(e, rest);
      InsertEndsBy(e, rest, sorted[0].start);
      FromRightCons(sorted[0], InsertEdit(e, rest));
      FromRightCons(sorted[0], rest);
      FitsAllCons(e, sorted[0], rest);
    }
  }

  lemma {:induction false} FitsAllSorted(e: Edit, edits: seq<Edit>)
    ensures FitsAll(e, SortDescending(edits)) <==> FitsAll(e, edits)
  {
    hide Fits, SortDescending;
    SortedDescending(edits);
    var d := SortDescending(edits);
    assert forall x :: x in multiset(d) <==> x in multiset(edits);
    if FitsAll(e, d) {
      forall k | 0 <= k < |edits|
        ensures Fits(e, edits[k])
      {
        assert edits[k] in multiset(edits);
        assert edits[k] in d;
      }
    }
    if FitsAll(e, edits) {
      forall k | 0 <= k < |d|
        ensures Fits(e, d[k])
      {
        assert d[k] in multiset(d);
        assert d[k] in edits;
      }
    }
  }

  lemma {:induction false} SortFits(edits: seq<Edit>)
    ensures FromRight(SortDescending(edits)) <==> Compatible(edits)
  {
    if edits != [] {
      var rest := edits[1..];
      SortFits(rest);
      SortedDescending(rest);
      InsertFits(edits[0], SortDescending(rest));
      FitsAllSorted(edits[0], rest);
      assert forall k | 0 <= k < |rest| :: rest[k] == edits[k + 1];
      assert Compatible(edits) <==> Compatible(rest) && FitsAll(edits[0], rest) by {
        if Compatible(edits) {
          forall k | 0 <= k < |rest|
            ensures Fits(edits[0], rest[k])
          {
            assert Fits(edits[0], edits[k + 1]);
          }
          forall j, k | 0 <= j < k < |rest|
            ensures Fits(rest[j], rest[k])
          {
            assert Fits(edits[j + 1], edits[k + 1]);
          }
        }
      }
    }
  }

  /** Edits within the text are applied as one simultaneous splice exactly if they are compatible in recorded order. */
  lemma {:induction false} CompatibleIsChained(edits: seq<Edit>, length: nat)
    requires Within(edits, length)
    ensures Compatible(edits) <==> Chained(Reversed(SortDescending(edits)), 0, length)
  {
    hide SortDescending;
    var d := SortDescending(edits);
    SortedDescending(edits);
    SortFits(edits);
    forall k | 0 <= k < |d|
      ensures d[k].start <= d[k].end <= length
    {
      assert d[k] in multiset(d);
    }
    var r := Reversed(d);
    if Chained(r, 0, length) {
      forall j, k | 0 <= j < k < |d|
        ensures d[k].end <= d[j].start
      {
        assert r[|d| - 1 - k].end <= r[|d| - 1 - j].start;
      }
    }
  }

  /** No two edits overlap or start at the same place. */
  ghost predicate Disjoint(edits: seq<Edit>) { forall j, k | 0 <= j < k < |edits| :: Apart(edits[j], edits[k]) }

  predicate Apart(a: Edit, b: Edit) { a.start != b.start && (a.end <= b.start || b.end <= a.start) }

  lemma {:induction false} DisjointFits(edits: seq<Edit>, length: nat)
    requires Disjoint(edits) && Within(edits, length)
    ensures Compatible(edits)
  {
    forall j, k | 0 <= j < k < |edits|
      ensures Fits(edits[j], edits[k])
    {
      assert Apart(edits[j], edits[k]);
    }
  }

  ghost predicate Falling(edits: seq<Edit>) { forall j, k | 0 <= j < k < |edits| :: edits[k].start < edits[j].start }

  lemma {:induction false} FirstIsHighest(a: seq<Edit>, e: Edit)
    requires Falling(a) && e in multiset(a)
    ensures a != [] && e.start <= a[0].start && (e.start == a[0].start ==> e == a[0])
  {
    var i :| 0 <= i < |a| && a[i] == e;
    assert i > 0 ==> a[i].start < a[0].start;
  }

  lemma {:induction false} TailsMatch(e: Edit, x: seq<Edit>, y: seq<Edit>)
    requires multiset([e] + x) == multiset([e] + y)
    ensures multiset(x) == multiset(y)
  {
    assert multiset(x) == multiset([e] + x) - multiset{e};
    assert multiset(y) == multiset([e] + y) - multiset{e};
  }

  lemma {:induction false} FallingTail(a: seq<Edit>)
    requires Falling(a) && a != []
    ensures Falling(a[1..]) && a == [a[0]] + a[1..] && a[0] in multiset(a)
  {
  }

  lemma {:induction false} FallingIsUnique(a: seq<Edit>, b: seq<Edit>)
    requires Falling(a) && Falling(b) && multiset(a) == multiset(b)
    ensures a == b
  {
    hide Falling;
    assert |multiset(a)| == |a| && |multiset(b)| == |b|;
    if a != [] {
      FallingTail(a);
      FallingTail(b);
      FirstIsHighest(b, a[0]);
      FirstIsHighest(a, b[0]);
      TailsMatch(a[0], a[1..], b[1..]);
      FallingIsUnique(a[1..], b[1..]);
    }
  }

  ghost predicate DistinctStarts(edits: seq<Edit>) {
    forall j, k | 0 <= j < k < |edits| :: edits[j].start != edits[k].start
  }

  lemma {:induction false} InsertFalls(e: Edit, sorted: seq<Edit>)
    requires Falling(sorted) && forall x | x in sorted :: x.start != e.start
    ensures Falling(InsertEdit(e, sorted))
    ensures forall x | x in InsertEdit(e, sorted) :: x == e || x in sorted
  {
    if sorted == [] || sorted[0].start <= e.start {
      assert forall k | 0 <= k < |sorted| :: sorted[k] in sorted;
    } else {
      assert forall x | x in sorted[1..] :: x in sorted;
      InsertFalls(e, sorted[1..]);
      var r := InsertEdit(e, sorted[1..]);
      forall k | 0 <= k < |r|
        ensures r[k].start < sorted[0].start
      {
        assert r[k] in r;
        assert r[k] in sorted[1..] ==> exists j :: 0 < j < |sorted| && sorted[j] == r[k];
      }
    }
  }

  lemma {:induction false} SortFalls(edits: seq<Edit>)
    requires DistinctStarts(edits)
    ensures Falling(SortDescending(edits))
  {
    if edits != [] {
      var rest := edits[1..];
      assert forall k | 0 <= k < |rest| :: rest[k] == edits[k + 1];
      SortFalls(rest);
      SortedDescending(rest);
      forall x | x in SortDescending(rest)
        ensures x.start != edits[0].start
      {
        assert x in multiset(SortDescending(rest));
        assert x in rest;
      }
      InsertFalls(edits[0], SortDescending(rest));
    }
  }

  /** Edits with distinct starts are applied in the same order whatever the order in which they were recorded. */
  lemma {:induction false} RecordingOrderIsIrrelevant(a: seq<Edit>, b: seq<Edit>)
    requires DistinctStarts(a) && DistinctStarts(b) && multiset(a) == multiset(b)
    ensures SortDescending(a) == SortDescending(b)
  {
    SortFalls(a);
    SortFalls(b);
    SortedDescending(a);
    SortedDescending(b);
    FallingIsUnique(SortDescending(a), SortDescending(b));
  }

  /** An insertion recorded before a replacement at the same place is lost, and a character to be replaced survives. */
  lemma {:induction false} InsertThenReplace()
    ensures var insert, replace := Edit(0, 0, "x"), Edit(0, 1, "y");
            && !Compatible([insert, replace]) && Compatible([replace, insert])
            && ApplyInOrder("ab", SortDescending([insert, replace])) == "yab"
            && ApplyInOrder("ab", SortDescending([replace, insert])) == "xyb"
  {
    var insert, replace := Edit(0, 0, "x"), Edit(0, 1, "y");
    assert !Fits([insert, replace][0], [insert, replace][1]);
    assert ApplyOne("ab", insert) == "xab" && ApplyOne("xab", replace) == "yab";
    assert ApplyOne("ab", replace) == "yb" && ApplyOne("yb", insert) == "xyb";
    assert SortDescending([insert]) == [insert] && SortDescending([replace]) == [replace];
    assert SortDescending([insert, replace]) == [insert, replace];
    assert SortDescending([replace, insert]) == [replace, insert];
    assert ApplyInOrder("yab", []) == "yab" && ApplyInOrder("xyb", []) == "xyb";
    assert ApplyInOrder("xab", [replace]) == "yab" && ApplyInOrder("yb", [insert]) == "xyb";
  }

  // ---------------------------------------------------------------- the editor

  class TextEditor {
    const text: string
    var changes: seq<Edit>

    constructor (text: string)
      ensures this.text == text && changes == []
    {
      this.text := text;
      changes := [];
    }

    method ReplaceSegment(start: nat, end: nat, newText: string)
      modifies this
      ensures changes == if start == end && newText == "" then old(changes)
              else old(changes) + [Edit(start, end, newText)]
    {
      if start == end && newText == "" {
        return;
      }
      changes := changes + [Edit(start, end, newText)];
    }

    method Insert(index: nat, newText: string)
      modifies this
      ensures changes == if newText == "" then old(changes) else old(changes) + [Edit(index, index, newText)]
    {
      ReplaceSegment(index, index, newText);
    }

    /** Applies the recorded changes to the text. */
    method Apply() returns (result: string)
      ensures result == ApplyInOrder(text, SortDescending(changes))
      ensures Compatible(changes) && Within(changes, |text|) ==>
                && Chained(Reversed(SortDescending(changes)), 0, |text|)
                && result == Splice(text, Reversed(SortDescending(changes)), 0)
    {
      hide SortDescending;
      var edits := SortDescending(changes);
      result := text;
      for i := 0 to |edits|
        invariant ApplyInOrder(result, edits[i..]) == ApplyInOrder(text, edits)
      {
        assert edits[i..][1..] == edits[i + 1..];
        result := result[..Clamp(edits[i].start, |result|)] + edits[i].text + result[Clamp(edits[i].end, |result|)..];
      }
      if Compatible(changes) && Within(changes, |text|) {
        CompatibleIsChained(changes, |text|);
        ApplyIsSplice(text, edits);
      }
    }
  }

  // ---------------------------------------------------------------- what a splice does

  function TotalDelta(edits: seq<Edit>): int {
    if edits == [] then 0 else edits[0].Delta() + TotalDelta(edits[1..])
  }

  lemma {:induction false} DeltaOfSum(a: seq<Edit>, b: seq<Edit>)
    ensures TotalDelta(a + b) == TotalDelta(a) + TotalDelta(b)
  {
    if a == [] {
      assert a + b == b;
    } else {
      assert (a + b)[1..] == a[1..] + b;
      DeltaOfSum(a[1..], b);
    }
  }

  lemma {:induction false} DeltaOfReversed(edits: seq<Edit>)
    ensures TotalDelta(Reversed(edits)) == TotalDelta(edits)
  {
    if edits != [] {
      assert Reversed(edits) == Reversed(edits[1..]) + [edits[0]];
      DeltaOfReversed(edits[1..]);
      DeltaOfSum(Reversed(edits[1..]), [edits[0]]);
      assert TotalDelta([edits[0]]) == edits[0].Delta();
    }
  }

  lemma {:induction false} DeltaOfInserted(e: Edit, sorted: seq<Edit>)
    ensures TotalDelta(InsertEdit(e, sorted)) == e.Delta() + TotalDelta(sorted)
  {
    if sorted == [] || sorted[0].start <= e.start {
      assert ([e] + sorted)[1..] == sorted;
    } else {
      DeltaOfInserted(e, sorted[1..]);
      assert ([sorted[0]] + InsertEdit(e, sorted[1..]))[1..] == InsertEdit(e, sorted[1..]);
    }
  }

  lemma {:induction false} DeltaOfSorted(edits: seq<Edit>)
    ensures TotalDelta(SortDescending(edits)) == TotalDelta(edits)
  {
    if edits != [] {
      DeltaOfSorted(edits[1..]);
      DeltaOfInserted(edits[0], SortDescending(edits[1..]));
    }
  }

  /** The edited text grows by what the edits add, in whatever order they were recorded. */
  lemma {:induction false} EditedLength(s: string, edits: seq<Edit>)
    requires Compatible(edits) && Within(edits, |s|)
    ensures |ApplyInOrder(s, SortDescending(edits))| == |s| + TotalDelta(edits)
  {
    hide SortDescending, Reversed;
    CompatibleIsChained(edits, |s|);
    ApplyIsSplice(s, SortDescending(edits));
    SpliceLength(s, Reversed(SortDescending(edits)), 0);
    DeltaOfReversed(SortDescending(edits));
    DeltaOfSorted(edits);
  }

  lemma {:induction false} SpliceLength(s: string, edits: seq<Edit>, from: nat)
    requires Chained(edits, from, |s|)
    ensures |Splice(s, edits, from)| == |s| - from + TotalDelta(edits)
  {
    if edits != [] {
      SpliceLength(s, edits[1..], edits[0].end);
    }
  }

  function GapStart(edits: seq<Edit>, from: nat, k: nat): nat
    requires k <= |edits|
  {
    if k == 0 then from else edits[k - 1].end
  }

  function GapEnd(edits: seq<Edit>, length: nat, k: nat): nat
    requires k <= |edits|
  {
    if k == |edits| then length else edits[k].start
  }

  /** Where gap `k` starts in the spliced text: moved by the growth of the edits before it. */
  function Landing(edits: seq<Edit>, from: nat, k: nat): int
    requires k <= |edits|
  {
    GapStart(edits, from, k) - from + TotalDelta(edits[..k])
  }

  lemma {:induction false} LandingStep(edits: seq<Edit>, from: nat, k: nat)
    requires 0 < k <= |edits|
    ensures Landing(edits, from, k) == edits[0].start - from + |edits[0].text|
            + Landing(edits[1..], edits[0].end, k - 1)
  {
    assert edits[..k][1..] == edits[1..][..k - 1] && edits[..k][0] == edits[0];
  }

  /** `part` stands at index `at` of `s`. */
  ghost predicate StandsAt(s: string, at: int, part: string) {
    0 <= at && at + |part| <= |s| && s[at..at + |part|] == part
  }

  lemma {:induction false} StandsAfter(head: string, t: string, at: int, part: string)
    requires StandsAt(t, at, part)
    ensures StandsAt(head + t, |head| + at, part)
  {
    assert (head + t)[|head| + at..|head| + at + |part|] == t[at..at + |part|];
  }

  /** Gap `k` of the text, and the text of edit `k`. */
  function Stretch(s: string, edits: seq<Edit>, from: nat, k: nat): string
    requires Chained(edits, from, |s|) && k <= |edits|
  {
    s[GapStart(edits, from, k)..GapEnd(edits, |s|, k)] + if k < |edits| then edits[k].text else ""
  }

  lemma {:induction false} FirstStretch(s: string, edits: seq<Edit>, from: nat)
    requires Chained(edits, from, |s|)
    ensures StandsAt(Splice(s, edits, from), Landing(edits, from, 0), Stretch(s, edits, from, 0))
  {
    assert edits[..0] == [];
    if edits != [] {
      assert Splice(s, edits, from) == Stretch(s, edits, from, 0) + Splice(s, edits[1..], edits[0].end);
    }
  }

  /** Gap `k` stands unchanged where the growth of the edits before it moves it, and the text of edit `k` right after
      it. */
  lemma {:induction false} SpliceEffect(s: string, edits: seq<Edit>, from: nat, k: nat)
    requires Chained(edits, from, |s|) && k <= |edits|
    ensures StandsAt(Splice(s, edits, from), Landing(edits, from, k), Stretch(s, edits, from, k))
  {
    if k == 0 {
      FirstStretch(s, edits, from);
    } else {
      SpliceEffect(s, edits[1..], edits[0].end, k - 1);
      LandingStep(edits, from, k);
      assert Stretch(s, edits, from, k) == Stretch(s, edits[1..], edits[0].end, k - 1);
      hide Landing, StandsAt, Stretch;
      StandsAfter(s[from..edits[0].start] + edits[0].text, Splice(s, edits[1..], edits[0].end),
                  Landing(edits[1..], edits[0].end, k - 1), Stretch(s, edits, from, k));
    }
  }
}
