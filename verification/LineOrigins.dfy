/** Where the lines of a run come from: an order-preserving map from the current text back to the first one, which
    misses and changes only what may go and what may be marked. */
module LineOrigins {
  import opened PyStrings
  import opened StepBlocks
  import opened WorkflowLines
  import opened StepNames
  import opened StepRewriter
  import opened RewrittenSteps
  import opened JobMatrix
  import opened TextPatcher
  import opened WorkflowPatcher
  import opened PlainRuns
  import opened JobLayouts
  import opened JobHeaders
  import opened JobPreparation
  import opened LaidOutJobs
  import opened LaidOutRuns
  import opened LineFrames

  // ---------------------------------------------------------------- what stands ahead of the search

  /** From line `from` on, the lines are those of the first text, and none that was written is a name line. */
  ghost predicate Untouched(text: seq<Line>, lines: seq<Line>, src: seq<int>, from: nat) {
    |src| == |lines| && forall k: nat | from <= k < |lines| ::
      src[k] < |text| && (if src[k] < 0 then !Named(lines[k].text) else lines[k] == text[src[k]])
  }

  /** Dash `d` covers a run key that line `m` belongs to. */
  ghost predicate UnderRun(t: Text, d: nat, m: nat) { exists r: nat :: Covers(t, d, r) && InRunText(t, r, m) }

  /** From line `from` on, what belongs to a run key that a dash covers was so before. */
  ghost predicate RunsStay(text: seq<Line>, lines: seq<Line>, src: seq<int>, from: nat) {
    |src| == |lines| &&
    forall d: nat, k: nat | from <= d && UnderRun(Shapes(lines), d, k) ::
      d <= k < |lines| && (0 <= src[k] ==> 0 <= src[d] && UnderRun(Shapes(text), src[d], src[k]))
  }

  lemma {:induction false} UnderRunBounds(t: Text, d: nat, m: nat)
    requires UnderRun(t, d, m)
    ensures d <= m < |t|
  {
  }

  /** From line `from` on, what a dash covers it covered before. */
  ghost predicate StepsStay(text: seq<Line>, lines: seq<Line>, src: seq<int>, from: nat) {
    |src| == |lines| &&
    forall d: nat, k: nat | from <= d && Covers(Shapes(lines), d, k) ::
      k < |lines| && (0 <= src[k] ==> 0 <= src[d] && Covers(Shapes(text), src[d], src[k]))
  }

  /** From line `from` on, a run key that is hot was hot before. */
  ghost predicate HeatStays(text: seq<Line>, lines: seq<Line>, src: seq<int>, from: nat) {
    |src| == |lines| &&
    forall r: nat | from <= r && Hot(Shapes(lines), r) ::
      r < |lines| && 0 <= src[r] && Hot(Shapes(text), src[r])
  }

  ghost predicate Ahead(text: seq<Line>, lines: seq<Line>, src: seq<int>, from: nat) {
    && Untouched(text, lines, src, from) && RunsStay(text, lines, src, from)
    && StepsStay(text, lines, src, from) && HeatStays(text, lines, src, from)
  }

  lemma {:induction false} AheadForm(text: seq<Line>, lines: seq<Line>, src: seq<int>, from: nat)
    requires Ahead(text, lines, src, from)
    ensures Untouched(text, lines, src, from) && RunsStay(text, lines, src, from)
    ensures StepsStay(text, lines, src, from) && HeatStays(text, lines, src, from) && |src| == |lines|
  {
    hide RunsStay, StepsStay, HeatStays;
  }

  lemma {:induction false} AheadIf(text: seq<Line>, lines: seq<Line>, src: seq<int>, from: nat)
    requires Untouched(text, lines, src, from) && RunsStay(text, lines, src, from)
    requires StepsStay(text, lines, src, from) && HeatStays(text, lines, src, from)
    ensures Ahead(text, lines, src, from)
  {
    hide Untouched, RunsStay, StepsStay, HeatStays;
  }

  lemma {:induction false} AheadLater(text: seq<Line>, a: seq<Line>, src: seq<int>, i: nat, j: nat)
    requires Ahead(text, a, src, i) && i <= j
    ensures Ahead(text, a, src, j)
  {
    hide UnderRun, Covers, Hot, Named;
  }

  lemma {:induction false} UntouchedAt(text: seq<Line>, lines: seq<Line>, src: seq<int>, from: nat, k: nat)
    requires Untouched(text, lines, src, from) && from <= k < |lines|
    ensures |src| == |lines| && src[k] < |text|
    ensures if src[k] < 0 then !Named(lines[k].text) else lines[k] == text[src[k]]
  {
  }

  lemma {:induction false} RunsStayAt(text: seq<Line>, lines: seq<Line>, src: seq<int>, from: nat, d: nat, k: nat)
    requires RunsStay(text, lines, src, from) && from <= d && UnderRun(Shapes(lines), d, k)
    ensures |src| == |lines| && d <= k < |lines|
    ensures 0 <= src[k] ==> 0 <= src[d] && UnderRun(Shapes(text), src[d], src[k])
  {
    hide UnderRun;
  }

  lemma {:induction false} StepsStayAt(text: seq<Line>, lines: seq<Line>, src: seq<int>, from: nat, d: nat, k: nat)
    requires StepsStay(text, lines, src, from) && from <= d && Covers(Shapes(lines), d, k)
    ensures |src| == |lines| && d <= k < |lines|
    ensures 0 <= src[k] ==> 0 <= src[d] && Covers(Shapes(text), src[d], src[k])
  {
    assert d <= k;
    hide Covers;
  }

  lemma {:induction false} HeatStaysAt(text: seq<Line>, lines: seq<Line>, src: seq<int>, from: nat, r: nat)
    requires HeatStays(text, lines, src, from) && from <= r && Hot(Shapes(lines), r)
    ensures |src| == |lines| && r < |lines| && 0 <= src[r] && Hot(Shapes(text), src[r])
  {
    hide Hot;
  }

  ghost predicate Traced(text: seq<Line>, lines: seq<Line>, src: seq<int>, from: nat) {
    Framed(text, lines, src) && Ahead(text, lines, src, from)
  }

  // ---------------------------------------------------------------- lines are replaced

  /** The source of every line when lines `x..y` are replaced by lines that come from them as `part` says. */
  function Spliced(src: seq<int>, x: nat, y: nat, part: seq<int>): seq<int>
    requires x <= y <= |src| && forall k | 0 <= k < |part| :: part[k] < y - x
  {
    src[..x] + seq(|part|, k requires 0 <= k < |part| => if part[k] < 0 then -1 else src[x + part[k]]) + src[y..]
  }

  lemma {:induction false} SplicedParts(src: seq<int>, x: nat, y: nat, part: seq<int>)
    requires x <= y <= |src| && forall k | 0 <= k < |part| :: part[k] < y - x
    ensures var from, n := Spliced(src, x, y, part), |part|;
            && |from| == |src| - (y - x) + n
            && (forall k | 0 <= k < x :: from[k] == src[k])
            && (forall k | x <= k < x + n :: from[k] == if part[k - x] < 0 then -1 else src[x + part[k - x]])
            && (forall k | x + n <= k < |from| :: from[k] == src[k - n + (y - x)])
            && from[x + n..] == src[y..]
  {
  }

  /** Of the lines `x..y`, those that `part` misses may go, and those that it keeps may be marked. */
  ghost predicate Replaceable(text: seq<Line>, src: seq<int>, x: nat, y: nat, part: seq<int>)
    requires x <= y <= |src|
  {
    && (forall m: nat | m < y - x && m !in part && 0 <= src[x + m] < |text| :: Goes(text, src[x + m]))
    && (forall k | 0 <= k < |part| && 0 <= part[k] < y - x && 0 <= src[x + part[k]] < |text| ::
          InSomePytestStep(text, src[x + part[k]]))
  }

  lemma {:induction false} SplicedLine(text: seq<Line>, a: seq<Line>, src: seq<int>, i: nat, x: nat, y: nat,
                                       ls: seq<Line>, part: seq<int>, k: nat)
    requires Framed(text, a, src) && x <= y <= |a| && (x < y ==> i <= x && Untouched(text, a, src, i))
    requires Kept(a[x..y], ls, part, y - x) && Replaceable(text, src, x, y, part)
    requires k < |a| - (y - x) + |ls|
    ensures var u, from := a[..x] + ls + a[y..], Spliced(src, x, y, part);
            && |from| == |u| == |a| - (y - x) + |ls| && -1 <= from[k] < |text|
            && (0 <= from[k] ==> FromLine(text, from[k], u[k])) && (from[k] < 0 ==> Written(u[k]))
  {
    hide *;
    FramedForm(text, a, src);
    KeptParts(a[x..y], ls, part, y - x);
    SplicedParts(src, x, y, part);
    SplicedAt(a, x, y, ls, a[..x] + ls + a[y..]);
    SameBefore(a, a[..x] + ls + a[y..], x);
    if x <= k < x + |ls| && 0 <= part[k - x] {
      var m := x + part[k - x];
      assert a[x..y][part[k - x]] == a[m];
      UntouchedAt(text, a, src, i, m);
      KeptLineForm(a[m], ls[k - x]);
      if 0 <= src[m] {
        MayMark(text, src, x, y, part, k - x);
        FromLineIf(text, src[m], ls[k - x]);
      }
    }
  }

  lemma {:induction false} SameBefore(a: seq<Line>, b: seq<Line>, x: nat)
    requires SameUpTo(a, b, x)
    ensures x <= |a| && x <= |b| && forall k | 0 <= k < x :: b[k] == a[k]
  {
  }

  lemma {:induction false} KeptLineForm(origin: Line, l: Line)
    requires KeptLine(origin, l)
    ensures l != origin ==> Named(origin.text) && l == Suffixed(origin)
  {
    hide Named, Suffixed;
  }

  lemma {:induction false} FromLineIf(text: seq<Line>, m: nat, l: Line)
    requires m < |text| && KeptLine(text[m], l) && InSomePytestStep(text, m)
    ensures FromLine(text, m, l)
  {
    hide Named, Suffixed, InSomePytestStep;
  }

  lemma {:induction false} MayMark(text: seq<Line>, src: seq<int>, x: nat, y: nat, part: seq<int>, k: nat)
    requires x <= y <= |src| && Replaceable(text, src, x, y, part) && k < |part| && 0 <= part[k] < y - x
    requires 0 <= src[x + part[k]] < |text|
    ensures InSomePytestStep(text, src[x + part[k]])
  {
    hide Goes, InSomePytestStep;
  }

  lemma {:induction false} MayGo(text: seq<Line>, src: seq<int>, x: nat, y: nat, part: seq<int>, m: nat)
    requires x <= y <= |src| && Replaceable(text, src, x, y, part) && m < y - x && m !in part
    requires 0 <= src[x + m] < |text|
    ensures Goes(text, src[x + m])
  {
    hide Goes, InSomePytestStep;
  }

  /** Where line `k` of the spliced text was before, or -1. */
  function LineWas(x: nat, y: nat, part: seq<int>, k: nat): int
    requires x <= y
  {
    if k < x then k else if k < x + |part| then (if part[k - x] < 0 then -1 else x + part[k - x])
        else k - |part| + (y - x)
  }

  lemma {:induction false} SplicedOrder(text: seq<Line>, a: seq<Line>, src: seq<int>, x: nat, y: nat, ls: seq<Line>,
                                        part: seq<int>, j: nat, k: nat)
    requires Framed(text, a, src) && x <= y <= |a| && Kept(a[x..y], ls, part, y - x)
    requires j < k < |a| - (y - x) + |ls|
    ensures var from := Spliced(src, x, y, part);
            |from| == |a| - (y - x) + |ls| && (0 <= from[j] && 0 <= from[k] ==> from[j] < from[k])
  {
    hide Written, KeptLine, InSomeRun, FromLine, Goes;
    SplicedParts(src, x, y, part);
    var from := Spliced(src, x, y, part);
    var l, m := LineWas(x, y, part, j), LineWas(x, y, part, k);
    if 0 <= from[j] && 0 <= from[k] {
      assert 0 <= l < m && from[j] == src[l] && from[k] == src[m];
    }
  }

  lemma {:induction false} SplicedGoes(text: seq<Line>, a: seq<Line>, src: seq<int>, x: nat, y: nat, part: seq<int>,
                                       m: nat)
    requires Framed(text, a, src) && x <= y <= |a| && (forall k | 0 <= k < |part| :: part[k] < y - x)
    requires Replaceable(text, src, x, y, part) && m < |text| && m !in Spliced(src, x, y, part)
    ensures Goes(text, m)
  {
    hide *;
    FramedForm(text, a, src);
    SplicedParts(src, x, y, part);
    if m in src {
      var k: nat :| k < |src| && src[k] == m;
      if k < x || y <= k || k - x in part {
        SplicedHolds(src, x, y, part, k);
      }
      MayGo(text, src, x, y, part, k - x);
    }
  }

  lemma {:induction false} SplicedHolds(src: seq<int>, x: nat, y: nat, part: seq<int>, k: nat)
    requires x <= y <= |src| && (forall k | 0 <= k < |part| :: part[k] < y - x) && k < |src|
    requires k < x || y <= k || k - x in part
    ensures src[k] in Spliced(src, x, y, part)
  {
    SplicedParts(src, x, y, part);
    var from := Spliced(src, x, y, part);
    if k < x {
      assert from[k] == src[k];
    } else if y <= k {
      assert from[k + |part| - (y - x)] == src[k];
    } else {
      var l: nat :| l < |part| && part[l] == k - x;
      assert from[x + l] == src[k];
    }
  }

  /** Lines `x..y`, not reached before, are replaced by lines that keep what may not go. */
  lemma {:induction false} SplicedFramed(text: seq<Line>, a: seq<Line>, src: seq<int>, i: nat, x: nat, y: nat,
                                         ls: seq<Line>, part: seq<int>)
    requires Framed(text, a, src) && x <= y <= |a| && (x < y ==> i <= x && Untouched(text, a, src, i))
    requires Kept(a[x..y], ls, part, y - x) && Replaceable(text, src, x, y, part)
    ensures Framed(text, a[..x] + ls + a[y..], Spliced(src, x, y, part))
  {
    hide *;
    FramedForm(text, a, src);
    KeptParts(a[x..y], ls, part, y - x);
    var u, from := a[..x] + ls + a[y..], Spliced(src, x, y, part);
    SplicedParts(src, x, y, part);
    forall k: nat | k < |from|
      ensures -1 <= from[k] < |text| && (0 <= from[k] ==> FromLine(text, from[k], u[k]))
      ensures (from[k] < 0 ==> Written(u[k]))
    {
      SplicedLine(text, a, src, i, x, y, ls, part, k);
    }
    forall j: nat, k: nat | j < k < |from|
      ensures 0 <= from[j] && 0 <= from[k] ==> from[j] < from[k]
    {
      SplicedOrder(text, a, src, x, y, ls, part, j, k);
    }
    forall m: nat | m < |text| && m !in from
      ensures Goes(text, m)
    {
      SplicedGoes(text, a, src, x, y, part, m);
    }
    FramedIf(text, u, from);
  }

  // ---------------------------------------------------------------- what stays when everything behind a line stays

  lemma {:induction false} RunTextShifts(a: seq<Line>, i: nat, b: seq<Line>, k: nat, r: nat, x: nat)
    requires SameFrom(a, i, b, k) && k <= r && InRunText(Shapes(b), r, x)
    ensures r <= x < |b| && InRunText(Shapes(a), r - k + i, x - k + i)
  {
    SameLines(a, i, b, k);
    hide SameFrom;
    forall y | r - k + i < y <= x - k + i
      ensures Shapes(a)[y].Blank() || Shapes(a)[r - k + i].indent < Shapes(a)[y].indent
    {
      assert b[y - i + k] == a[y];
    }
  }

  lemma {:induction false} CoverBack(a: seq<Line>, i: nat, b: seq<Line>, k: nat, d: nat, x: nat)
    requires SameFrom(a, i, b, k) && k <= d && Covers(Shapes(b), d, x)
    ensures d <= x < |b| && Covers(Shapes(a), d - k + i, x - k + i)
  {
    CoverBounds(Shapes(b), d, x);
    SameShapes(a, i, b, k);
    CoverShifts(Shapes(b), k, Shapes(a), i, d, x);
  }

  lemma {:induction false} HotBack(a: seq<Line>, i: nat, b: seq<Line>, k: nat, r: nat)
    requires SameFrom(a, i, b, k) && k <= r && Hot(Shapes(b), r)
    ensures r < |b| && Hot(Shapes(a), r - k + i)
  {
    HotIsRun(Shapes(b), r);
    hide Hot;
    SameShapes(a, i, b, k);
    SuffixHot(Shapes(b), k, Shapes(a), i, r - k);
  }

  /** Sources and lines from `k` on are those from `i` on before. */
  ghost predicate Follow(a: seq<Line>, src: seq<int>, i: nat, b: seq<Line>, from: seq<int>, k: nat) {
    && |src| == |a| && |from| == |b| && i <= |a| && |b| - k == |a| - i && SameFrom(a, i, b, k)
    && forall x | k <= x < |b| :: from[x] == src[x - k + i]
  }

  lemma {:induction false} SourcesShift(a: seq<Line>, src: seq<int>, i: nat, b: seq<Line>, from: seq<int>, k: nat)
    requires SameFrom(a, i, b, k) && |src| == |a| && |from| == |b| && i <= |src| && k <= |from|
    requires src[i..] == from[k..]
    ensures Follow(a, src, i, b, from, k)
  {
    SameLines(a, i, b, k);
    hide SameFrom;
    forall x | k <= x < |b|
      ensures from[x] == src[x - k + i]
    {
      assert from[x] == from[k..][x - k] == src[i..][x - k];
    }
  }

  /** What is true ahead of some line stays true when everything behind it stays. */
  lemma {:induction false} AheadBehind(text: seq<Line>, a: seq<Line>, src: seq<int>, i: nat, b: seq<Line>,
                                       from: seq<int>, k: nat)
    requires Ahead(text, a, src, i) && SameFrom(a, i, b, k) && |from| == |b| && i <= |src| && k <= |from|
    requires src[i..] == from[k..]
    ensures Ahead(text, b, from, k)
  {
    hide *;
    AheadForm(text, a, src, i);
    SourcesShift(a, src, i, b, from, k);
    UntouchedBehind(text, a, src, i, b, from, k);
    RunsStayBehind(text, a, src, i, b, from, k);
    StepsStayBehind(text, a, src, i, b, from, k);
    HeatStaysBehind(text, a, src, i, b, from, k);
    AheadIf(text, b, from, k);
  }

  lemma {:induction false} UntouchedBehind(text: seq<Line>, a: seq<Line>, src: seq<int>, i: nat, b: seq<Line>,
                                           from: seq<int>, k: nat)
    requires Untouched(text, a, src, i) && Follow(a, src, i, b, from, k)
    ensures Untouched(text, b, from, k)
  {
    SameLines(a, i, b, k);
    hide Named, SameFrom;
  }

  lemma {:induction false} UnderRunBack(a: seq<Line>, i: nat, b: seq<Line>, k: nat, d: nat, x: nat)
    requires SameFrom(a, i, b, k) && k <= d && UnderRun(Shapes(b), d, x)
    ensures d <= x < |b| && UnderRun(Shapes(a), d - k + i, x - k + i)
  {
    hide Covers, InRunText, SameFrom;
    var r: nat :| Covers(Shapes(b), d, r) && InRunText(Shapes(b), r, x);
    CoverBack(a, i, b, k, d, r);
    RunTextShifts(a, i, b, k, r, x);
    var r0: nat := r - k + i;
    assert Covers(Shapes(a), d - k + i, r0) && InRunText(Shapes(a), r0, x - k + i);
  }

  lemma {:induction false} RunsStayBehind(text: seq<Line>, a: seq<Line>, src: seq<int>, i: nat, b: seq<Line>,
                                          from: seq<int>, k: nat)
    requires RunsStay(text, a, src, i) && Follow(a, src, i, b, from, k)
    ensures RunsStay(text, b, from, k)
  {
    hide UnderRun, SameFrom;
    forall d: nat, x: nat | k <= d && UnderRun(Shapes(b), d, x)
      ensures d <= x < |b| && (0 <= from[x] ==> 0 <= from[d] && UnderRun(Shapes(text), from[d], from[x]))
    {
      UnderRunBack(a, i, b, k, d, x);
      RunsStayAt(text, a, src, i, d - k + i, x - k + i);
    }
  }

  lemma {:induction false} StepsStayBehind(text: seq<Line>, a: seq<Line>, src: seq<int>, i: nat, b: seq<Line>,
                                           from: seq<int>, k: nat)
    requires StepsStay(text, a, src, i) && Follow(a, src, i, b, from, k)
    ensures StepsStay(text, b, from, k)
  {
    hide Covers, SameFrom;
    forall d: nat, x: nat | k <= d && Covers(Shapes(b), d, x)
      ensures x < |b| && (0 <= from[x] ==> d < |b| && 0 <= from[d] && Covers(Shapes(text), from[d], from[x]))
    {
      CoverBack(a, i, b, k, d, x);
      StepsStayAt(text, a, src, i, d - k + i, x - k + i);
    }
  }

  lemma {:induction false} HeatStaysBehind(text: seq<Line>, a: seq<Line>, src: seq<int>, i: nat, b: seq<Line>,
                                           from: seq<int>, k: nat)
    requires HeatStays(text, a, src, i) && Follow(a, src, i, b, from, k)
    ensures HeatStays(text, b, from, k)
  {
    hide Hot, SameFrom;
    forall r: nat | k <= r && Hot(Shapes(b), r)
      ensures r < |b| && 0 <= from[r] && Hot(Shapes(text), from[r])
    {
      HotBack(a, i, b, k, r);
      HeatStaysAt(text, a, src, i, r - k + i);
    }
  }

  // ---------------------------------------------------------------- what stays when a script is refreshed

  /** A line outside the refreshed script that belongs to a run key did so before. */
  lemma {:induction false} RefreshRunText(t: Text, q: nat, p: nat, u: Text, r: nat, x: nat)
    requires Refreshed(t, q, p, 4, u) && InRunText(u, r, x) && (x < q || q + 5 <= x)
    ensures (r <= q || q + 5 <= r) && 0 <= LineBefore(q, p, 4, r) && 0 <= LineBefore(q, p, 4, x)
    ensures InRunText(t, LineBefore(q, p, 4, r), LineBefore(q, p, 4, x))
  {
    var r0, x0 := LineBefore(q, p, 4, r), LineBefore(q, p, 4, x);
    assert r <= q || q + 5 <= r;
    forall y | r0 < y <= x0
      ensures t[y].Blank() || t[r0].indent < t[y].indent
    {
      if p <= y {
        assert t[y] == u[y - p + q + 5];
      } else if y < q {
        assert t[y] == u[y];
      } else if r < q {
        assert u[r].indent < u[q].indent;
      }
    }
  }

  function FiveWritten(): seq<int> { [-1, -1, -1, -1, -1] }

  /** The sources after the script `q..p` was refreshed. */
  function Refreshing5(src: seq<int>, q: nat, p: nat): seq<int>
    requires q <= p <= |src|
  {
    Spliced(src, q, p, FiveWritten())
  }

  lemma {:induction false} SourcesRefreshed(a: seq<Line>, src: seq<int>, q: nat, p: nat, v: seq<Line>, x: nat)
    requires q < p <= |a| && |src| == |a| && v == a[..q] + InstallRun(a[q].Indent()) + a[p..] && x < |v|
    ensures var from := Refreshing5(src, q, p);
            && |from| == |v| == |a| - (p - q) + 5
            && (q <= x < q + 5 ==> from[x] == -1 && v[x] == InstallRun(a[q].Indent())[x - q])
            && (x < q || q + 5 <= x ==>
                  && 0 <= LineBefore(q, p, 4, x) < |a|
                  && from[x] == src[LineBefore(q, p, 4, x)] && v[x] == a[LineBefore(q, p, 4, x)])
  {
    hide InstallRun;
    SplicedParts(src, q, p, FiveWritten());
    LineBeforeIs(q, p, x);
  }

  /** The script `q..p` is refreshed, and `from` are the sources then. */
  ghost predicate ScriptChanges(a: seq<Line>, src: seq<int>, q: nat, p: nat, v: seq<Line>, from: seq<int>) {
    && q < p <= |a| && |src| == |a| && v == a[..q] + InstallRun(a[q].Indent()) + a[p..]
    && Refreshed(Shapes(a), q, p, 4, Shapes(v)) && from == Refreshing5(src, q, p)
  }

  lemma {:induction false} SourceBefore(a: seq<Line>, src: seq<int>, q: nat, p: nat, v: seq<Line>, from: seq<int>,
                                        x: nat)
    requires ScriptChanges(a, src, q, p, v, from) && x < |v|
    ensures |from| == |v| && (q <= x < q + 5 ==> from[x] == -1 && v[x] == InstallRun(a[q].Indent())[x - q])
    ensures x < q || q + 5 <= x ==>
              && 0 <= LineBefore(q, p, 4, x) < |a|
              && from[x] == src[LineBefore(q, p, 4, x)] && v[x] == a[LineBefore(q, p, 4, x)]
  {
    hide InstallRun, Refreshed, Refreshing5, LineBefore;
    SourcesRefreshed(a, src, q, p, v, x);
  }

  lemma {:induction false} ChangesForm(a: seq<Line>, src: seq<int>, q: nat, p: nat, v: seq<Line>, from: seq<int>)
    requires ScriptChanges(a, src, q, p, v, from)
    ensures q < p <= |a| && |src| == |a| && |from| == |v| == |a| - (p - q) + 5
    ensures Refreshed(Shapes(a), q, p, 4, Shapes(v))
  {
    hide InstallRun, Refreshed;
    SplicedParts(src, q, p, FiveWritten());
  }

  lemma {:induction false} InstallRunIsUnnamed(indent: nat)
    ensures |InstallRun(indent)| == 5 && forall k | 0 <= k < 5 :: !Named(InstallRun(indent)[k].text)
  {
    CommandsStart();
    assert RUN_HEADER[0] == 'r';
    forall k | 0 <= k < 5
      ensures !Named(InstallRun(indent)[k].text)
    {
      var s := if k == 0 then RUN_HEADER else INSTALL_RUN_COMMANDS[k - 1];
      assert InstallRun(indent)[k].text == s;
      if Named(s) { NamedStart(s); }
    }
  }

  lemma {:induction false} CommandsStart()
    ensures |INSTALL_RUN_COMMANDS| == 4
    ensures forall k | 0 <= k < 4 :: INSTALL_RUN_COMMANDS[k] != "" && INSTALL_RUN_COMMANDS[k][0] == 'p'
  {
    assert UPGRADE_PIP[0] == 'p' && INSTALL_EXTRAS[0] == 'p' && INSTALL_TESTING[0] == 'p' && INSTALL_SUPPORT[0] == 'p';
  }

  lemma {:induction false} UntouchedOverRefresh(text: seq<Line>, a: seq<Line>, src: seq<int>, i: nat, q: nat, p: nat,
                                                v: seq<Line>, from: seq<int>)
    requires Untouched(text, a, src, i) && i < q && ScriptChanges(a, src, q, p, v, from)
    ensures Untouched(text, v, from, i)
  {
    hide *;
    ChangesForm(a, src, q, p, v, from);
    InstallRunIsUnnamed(a[q].Indent());
    forall x: nat | i <= x < |v|
      ensures from[x] < |text| && (if from[x] < 0 then !Named(v[x].text) else v[x] == text[from[x]])
    {
      SourceBefore(a, src, q, p, v, from, x);
      if x < q || q + 5 <= x {
        LineBeforeIs(q, p, x);
        UntouchedAt(text, a, src, i, LineBefore(q, p, 4, x));
      }
    }
    UntouchedIf(text, v, from, i);
  }

  lemma {:induction false} UntouchedIf(text: seq<Line>, lines: seq<Line>, src: seq<int>, from: nat)
    requires |src| == |lines| && forall k: nat | from <= k < |lines| ::
               src[k] < |text| && (if src[k] < 0 then !Named(lines[k].text) else lines[k] == text[src[k]])
    ensures Untouched(text, lines, src, from)
  {
    hide Named;
  }

  lemma {:induction false} UnderRunBefore(t: Text, q: nat, p: nat, u: Text, d: nat, x: nat)
    requires Refreshed(t, q, p, 4, u) && UnderRun(u, d, x) && (x < q || q + 5 <= x)
    ensures (d < q || q + 5 <= d) && 0 <= LineBefore(q, p, 4, d) && 0 <= LineBefore(q, p, 4, x)
    ensures UnderRun(t, LineBefore(q, p, 4, d), LineBefore(q, p, 4, x))
  {
    hide Covers, InRunText, Refreshed, LineBefore;
    var r: nat :| Covers(u, d, r) && InRunText(u, r, x);
    RefreshRunText(t, q, p, u, r, x);
    RefreshKeepsCover(t, q, p, 4, u, d, r);
    var r0: nat := LineBefore(q, p, 4, r);
    assert Covers(t, LineBefore(q, p, 4, d), r0) && InRunText(t, r0, LineBefore(q, p, 4, x));
  }

  lemma {:induction false} RunsStayOverRefresh(text: seq<Line>, a: seq<Line>, src: seq<int>, i: nat, q: nat, p: nat,
                                               v: seq<Line>, from: seq<int>)
    requires RunsStay(text, a, src, i) && i < q && ScriptChanges(a, src, q, p, v, from)
    ensures RunsStay(text, v, from, i)
  {
    hide UnderRun, ScriptChanges, LineBefore, Refreshed;
    ChangesForm(a, src, q, p, v, from);
    forall d: nat, x: nat | i <= d && UnderRun(Shapes(v), d, x)
      ensures d <= x < |v| && (0 <= from[x] ==> 0 <= from[d] && UnderRun(Shapes(text), from[d], from[x]))
    {
      UnderRunBounds(Shapes(v), d, x);
      SourceBefore(a, src, q, p, v, from, x);
      if x < q || q + 5 <= x {
        UnderRunBefore(Shapes(a), q, p, Shapes(v), d, x);
        SourceBefore(a, src, q, p, v, from, d);
        LineBeforeIs(q, p, d);
        RunsStayAt(text, a, src, i, LineBefore(q, p, 4, d), LineBefore(q, p, 4, x));
      }
    }
  }

  lemma {:induction false} StepsStayOverRefresh(text: seq<Line>, a: seq<Line>, src: seq<int>, i: nat, q: nat, p: nat,
                                                v: seq<Line>, from: seq<int>)
    requires StepsStay(text, a, src, i) && i < q && ScriptChanges(a, src, q, p, v, from)
    ensures StepsStay(text, v, from, i)
  {
    hide Covers, ScriptChanges, LineBefore, Refreshed;
    ChangesForm(a, src, q, p, v, from);
    forall d: nat, x: nat | i <= d && Covers(Shapes(v), d, x)
      ensures x < |v| && (0 <= from[x] ==> d < |v| && 0 <= from[d] && Covers(Shapes(text), from[d], from[x]))
    {
      CoverBounds(Shapes(v), d, x);
      SourceBefore(a, src, q, p, v, from, x);
      if x < q || q + 5 <= x {
        RefreshKeepsCover(Shapes(a), q, p, 4, Shapes(v), d, x);
        SourceBefore(a, src, q, p, v, from, d);
        LineBeforeIs(q, p, d);
        StepsStayAt(text, a, src, i, LineBefore(q, p, 4, d), LineBefore(q, p, 4, x));
      }
    }
  }

  lemma {:induction false} HeatStaysOverRefresh(text: seq<Line>, a: seq<Line>, src: seq<int>, i: nat, q: nat, p: nat,
                                                v: seq<Line>, from: seq<int>)
    requires HeatStays(text, a, src, i) && i < q && ScriptChanges(a, src, q, p, v, from)
    ensures HeatStays(text, v, from, i)
  {
    hide Hot, ScriptChanges, LineBefore, Refreshed;
    ChangesForm(a, src, q, p, v, from);
    forall r: nat | i <= r && Hot(Shapes(v), r)
      ensures r < |v| && 0 <= from[r] && Hot(Shapes(text), from[r])
    {
      HotIsRun(Shapes(v), r);
      RefreshKeepsHot(Shapes(a), q, p, 4, Shapes(v), r);
      SourceBefore(a, src, q, p, v, from, r);
      LineBeforeIs(q, p, r);
      HeatStaysAt(text, a, src, i, LineBefore(q, p, 4, r));
    }
  }

  lemma {:induction false} LineBeforeIs(q: nat, p: nat, y: nat)
    ensures LineBefore(q, p, 4, y) == if y <= q then y else y - 5 - q + p
  {
  }

  // ---------------------------------------------------------------- edits

  /** Sources before `x` stay, and those from `y` on move to `z`. */
  ghost predicate Carried(src: seq<int>, from: seq<int>, x: nat, y: nat, z: nat) {
    x <= |src| && x <= |from| && y <= |src| && z <= |from| && src[..x] == from[..x] && src[y..] == from[z..]
  }

  lemma {:induction false} CarriedTwice(a: seq<int>, b: seq<int>, c: seq<int>, x: nat, y: nat, z: nat, x1: nat, y1: nat,
                                        z1: nat)
    requires Carried(a, b, x, y, z) && Carried(b, c, x1, y1, z1) && x <= x1 && y1 <= z
    ensures Carried(a, c, x, y, z1 + z - y1)
  {
    assert b[..x] == b[..x1][..x] && c[..x] == c[..x1][..x];
    assert b[z..] == b[y1..][z - y1..] && c[z1 + z - y1..] == c[z1..][z - y1..];
  }

  lemma {:induction false} CarriedLater(a: seq<int>, b: seq<int>, x: nat, y: nat, z: nat, x1: nat, n: nat)
    requires Carried(a, b, x, y, z) && x1 <= x && y + n <= |a|
    ensures Carried(a, b, x1, y + n, z + n)
  {
    assert |a[y..]| == |b[z..]|;
    assert a[..x1] == a[..x][..x1] && b[..x1] == b[..x][..x1];
    assert a[y + n..] == a[y..][n..] && b[z + n..] == b[z..][n..];
  }

  lemma {:induction false} CarriedItself(a: seq<int>, x: nat, y: nat)
    requires x <= |a| && y <= |a|
    ensures Carried(a, a, x, y, y)
  {
  }

  lemma {:induction false} SplicedCarried(src: seq<int>, x: nat, y: nat, part: seq<int>)
    requires x <= y <= |src| && forall k | 0 <= k < |part| :: part[k] < y - x
    ensures Carried(src, Spliced(src, x, y, part), x, y, x + |part|)
  {
    SplicedParts(src, x, y, part);
  }

  function AllWritten(n: nat): (part: seq<int>)
    ensures |part| == n && forall k | 0 <= k < n :: part[k] == -1
  {
    seq(n, _ => -1)
  }

  lemma {:induction false} NothingOfIt(b: seq<Line>, ls: seq<Line>)
    requires forall k | 0 <= k < |ls| :: Written(ls[k])
    ensures b == [] ==> Kept(b, ls, AllWritten(|ls|), 0)
  {
    hide Written;
  }

  lemma {:induction false} TracedForm(text: seq<Line>, lines: seq<Line>, src: seq<int>, from: nat)
    requires Traced(text, lines, src, from)
    ensures Framed(text, lines, src) && Ahead(text, lines, src, from) && |src| == |lines|
  {
    AheadForm(text, lines, src, from);
    hide Framed, Ahead;
  }

  lemma {:induction false} TracedLater(text: seq<Line>, lines: seq<Line>, src: seq<int>, i: nat, j: nat)
    requires Traced(text, lines, src, i) && i <= j
    ensures Traced(text, lines, src, j)
  {
    TracedForm(text, lines, src, i);
    AheadLater(text, lines, src, i, j);
    hide Framed, Ahead;
  }

  /** Inserting written lines keeps the map, for what stands behind them. */
  lemma {:induction false} TracedInsert(text: seq<Line>, a: seq<Line>, src: seq<int>, i: nat, x: nat, ls: seq<Line>)
    returns (from: seq<int>)
    requires Traced(text, a, src, i) && x <= i <= |a| && forall k | 0 <= k < |ls| :: Written(ls[k])
    ensures Traced(text, InsertLines(a, x, ls), from, i + |ls|) && Carried(src, from, x, x, x + |ls|)
  {
    hide *;
    TracedForm(text, a, src, i);
    from := Spliced(src, x, x, AllWritten(|ls|));
    NothingSlice(a, x);
    NothingOfIt(a[x..x], ls);
    NothingLost(text, src, x, AllWritten(|ls|));
    SplicedFramed(text, a, src, i, x, x, ls, AllWritten(|ls|));
    InsertForm(a, x, ls);
    SplicedCarried(src, x, x, AllWritten(|ls|));
    var u := InsertLines(a, x, ls);
    SplicedAt(a, x, x, ls, u);
    SameLater(a, x, u, x + |ls|, i - x);
    CarriedLater(src, from, x, x, x + |ls|, x, i - x);
    CarriedForm(src, from, x, i, i + |ls|);
    AheadBehind(text, a, src, i, u, from, i + |ls|);
    TracedIf(text, u, from, i + |ls|);
  }

  lemma {:induction false} NothingSlice(a: seq<Line>, x: nat)
    requires x <= |a|
    ensures a[x..x] == []
  {
  }

  lemma {:induction false} NothingLost(text: seq<Line>, src: seq<int>, x: nat, part: seq<int>)
    requires x <= |src|
    requires forall k | 0 <= k < |part| :: part[k] < 0
    ensures Replaceable(text, src, x, x, part)
  {
  }

  lemma {:induction false} CarriedForm(a: seq<int>, b: seq<int>, x: nat, y: nat, z: nat)
    requires Carried(a, b, x, y, z)
    ensures x <= |a| && x <= |b| && y <= |a| && z <= |b| && a[..x] == b[..x] && a[y..] == b[z..] && |a| - y == |b| - z
  {
    assert |a[y..]| == |b[z..]|;
  }

  lemma {:induction false} TracedIf(text: seq<Line>, lines: seq<Line>, src: seq<int>, from: nat)
    requires Framed(text, lines, src) && Ahead(text, lines, src, from)
    ensures Traced(text, lines, src, from)
  {
    hide Framed, Ahead;
  }

  /** Refreshing an install script keeps the map. */
  lemma {:induction false} TracedRefresh(text: seq<Line>, a: seq<Line>, src: seq<int>, i: nat, d: nat, q: nat, p: nat,
                                         v: seq<Line>)
    returns (from: seq<int>)
    requires Traced(text, a, src, i) && i <= d && Covers(Shapes(a), d, q) && d < q < p <= |a|
    requires v == a[..q] + InstallRun(a[q].Indent()) + a[p..]
    requires Refreshed(Shapes(a), q, p, 4, Shapes(v)) && RunExtent(Shapes(a), q, p) && AllRefreshGo(text, a, src, q, p)
    ensures Traced(text, v, from, i) && Carried(src, from, q, p, q + 5)
  {
    hide *;
    TracedForm(text, a, src, i);
    AheadForm(text, a, src, i);
    FiveForm();
    from := Refreshing5(src, q, p);
    RefreshedSources(src, q, p);
    InstallRunIsWritten(a[q].Indent());
    RunIsLost(a, q, p, InstallRun(a[q].Indent()));
    ScriptGoes(text, a, src, i, d, q, p);
    SplicedFramed(text, a, src, i, q, p, InstallRun(a[q].Indent()), FiveWritten());
    SplicedCarried(src, q, p, FiveWritten());
    ChangesIf(a, src, q, p, v);
    UntouchedOverRefresh(text, a, src, i, q, p, v, from);
    RunsStayOverRefresh(text, a, src, i, q, p, v, from);
    StepsStayOverRefresh(text, a, src, i, q, p, v, from);
    HeatStaysOverRefresh(text, a, src, i, q, p, v, from);
    AheadIf(text, v, from, i);
    TracedIf(text, v, from, i);
  }

  /** The lines `q..p` are in an install script that is replaced. */
  ghost predicate AllRefreshGo(text: seq<Line>, a: seq<Line>, src: seq<int>, q: nat, p: nat) {
    q <= p <= |a| == |src| && forall k: nat | q <= k < p && 0 <= src[k] :: RefreshGoes(text, src[k])
  }

  lemma {:induction false} RefreshedSources(src: seq<int>, q: nat, p: nat)
    requires q <= p <= |src|
    ensures |FiveWritten()| == 5 && forall k | 0 <= k < 5 :: FiveWritten()[k] == -1
    ensures Refreshing5(src, q, p) == Spliced(src, q, p, FiveWritten())
  {
  }

  lemma {:induction false} ChangesIf(a: seq<Line>, src: seq<int>, q: nat, p: nat, v: seq<Line>)
    requires q < p <= |a| && |src| == |a| && v == a[..q] + InstallRun(a[q].Indent()) + a[p..]
    requires Refreshed(Shapes(a), q, p, 4, Shapes(v))
    ensures ScriptChanges(a, src, q, p, v, Refreshing5(src, q, p))
  {
    hide InstallRun, Refreshed, Refreshing5;
  }

  lemma {:induction false} FiveForm()
    ensures |FiveWritten()| == 5 && forall k | 0 <= k < 5 :: FiveWritten()[k] == -1
  {
  }

  lemma {:induction false} InstallRunIsWritten(indent: nat)
    ensures |InstallRun(indent)| == 5 && forall k | 0 <= k < 5 :: Written(InstallRun(indent)[k])
  {
    hide WellRead;
    InstallRunIsRead(indent);
    CommandsAreOwn();
    forall k | 0 <= k < 5
      ensures OwnText(InstallRun(indent)[k].text)
    {
      if 0 < k {
        assert InstallRun(indent)[k].text == INSTALL_RUN_COMMANDS[k - 1];
      }
    }
    hide InstallRun;
  }

  lemma {:induction false} CommandsAreOwn()
    ensures |INSTALL_RUN_COMMANDS| == 4 && forall k | 0 <= k < 4 :: OwnText(INSTALL_RUN_COMMANDS[k])
  {
  }

  lemma {:induction false} RunIsLost(a: seq<Line>, q: nat, p: nat, ls: seq<Line>)
    requires q < p <= |a| && RunExtent(Shapes(a), q, p) && |ls| == 5 && forall k | 0 <= k < 5 :: Written(ls[k])
    ensures Kept(a[q..p], ls, FiveWritten(), p - q)
  {
    hide Written, KeptLine;
    var b := a[q..p];
    forall m: nat | m < p - q
      ensures InSomeRun(Shapes(b), m)
    {
      assert forall y | 0 <= y < |b| :: Shapes(b)[y] == Shapes(a)[q + y];
      assert InRunText(Shapes(b), 0, m);
    }
  }

  lemma {:induction false} ScriptGoes(text: seq<Line>, a: seq<Line>, src: seq<int>, i: nat, d: nat, q: nat, p: nat)
    requires RunsStay(text, a, src, i) && i <= d && Covers(Shapes(a), d, q) && q < p <= |a|
    requires RunExtent(Shapes(a), q, p) && AllRefreshGo(text, a, src, q, p)
    ensures Replaceable(text, src, q, p, FiveWritten())
  {
    hide RefreshGoes, RunsStay, UnderRun, Covers, InSomeRun, InSomePytestStep;
    forall m: nat | m < p - q && m !in FiveWritten() && 0 <= src[q + m] < |text|
      ensures Goes(text, src[q + m])
    {
      ScriptUnderRun(Shapes(a), d, q, p, q + m);
      RunsStayAt(text, a, src, i, d, q + m);
      UnderSomeRun(Shapes(text), src[d], src[q + m]);
    }
  }

  lemma {:induction false} ScriptUnderRun(t: Text, d: nat, q: nat, p: nat, m: nat)
    requires Covers(t, d, q) && RunExtent(t, q, p) && q <= m < p
    ensures UnderRun(t, d, m)
  {
    assert InRunText(t, q, m);
  }

  lemma {:induction false} UnderSomeRun(t: Text, d: nat, m: nat)
    requires UnderRun(t, d, m)
    ensures InSomeRun(t, m)
  {
    hide InRunText, Covers;
  }

  /** Rewriting a step that runs pytest keeps the map, for what stands behind the step. */
  lemma {:induction false} TracedRewrite(text: seq<Line>, a: seq<Line>, src: seq<int>, i: nat, t: Step)
    returns (from: seq<int>)
    requires Traced(text, a, src, i) && i <= t.start && AllRead(a) && StepAt(a, t.start) == Some(t)
    requires !Cold(Shapes(t.lines))
    ensures var ls := RewriteLines(t.lines, t.indent);
            && t.end <= |a| && Traced(text, Rewriting(a, t), from, t.start + |ls|)
            && Carried(src, from, t.start, t.end, t.start + |ls|)
  {
    hide *;
    TracedForm(text, a, src, i);
    AheadForm(text, a, src, i);
    StepIsBlock(a, t);
    StepLinesForm(a, t);
    RewritingForm(a, t);
    var ls, u := RewriteLines(t.lines, t.indent), Rewriting(a, t);
    var part := RewrittenKeepsLines(t.lines, t.indent);
    KeptForm(t.lines, ls, part);
    BlockReplaceable(text, a, src, i, t, ls, part);
    SplicedFramed(text, a, src, i, t.start, t.end, ls, part);
    from := Spliced(src, t.start, t.end, part);
    SplicedCarried(src, t.start, t.end, part);
    CarriedForm(src, from, t.start, t.end, t.start + |ls|);
    SplicedAt(a, t.start, t.end, ls, u);
    AheadLater(text, a, src, i, t.end);
    AheadBehind(text, a, src, t.end, u, from, t.start + |ls|);
    TracedIf(text, u, from, t.start + |ls|);
  }

  lemma {:induction false} StepLinesForm(a: seq<Line>, t: Step)
    requires StepAt(a, t.start) == Some(t)
    ensures t.start < t.end <= |a| && t.lines == a[t.start..t.end] && |t.lines| == t.end - t.start
  {
    hide StepEnd;
  }

  lemma {:induction false} KeptForm(b: seq<Line>, u: seq<Line>, src: seq<int>)
    requires Kept(b, u, src, |b|)
    ensures |src| == |u| && (forall k | 0 <= k < |src| :: src[k] < |b|)
    ensures forall m: nat | m < |b| && m !in src :: InSomeRun(Shapes(b), m)
  {
    hide KeptLine, Written, InSomeRun;
  }

  /** The step that is rewritten was in one that ran pytest, with all its lines that were not written. */
  lemma {:induction false} BlockWasPytest(text: seq<Line>, a: seq<Line>, src: seq<int>, i: nat, t: Step)
    returns (d: nat)
    requires StepsStay(text, a, src, i) && HeatStays(text, a, src, i) && i <= t.start
    requires StepAt(a, t.start) == Some(t) && !Cold(Shapes(t.lines))
    ensures |src| == |a| && t.start < t.end <= |a| && 0 <= src[t.start]
    ensures forall m: nat | Covers(Shapes(text), src[t.start], m) :: InPytestStep(text, d, m)
  {
    hide *;
    var r := HotLineOf(a, t);
    StepCovers(a, t, r);
    HeatStaysAt(text, a, src, i, r);
    StepsStayAt(text, a, src, i, t.start, r);
    d := OuterStep(text, src[t.start], src[r]);
  }

  lemma {:induction false} HotLineOf(a: seq<Line>, t: Step) returns (r: nat)
    requires StepAt(a, t.start) == Some(t) && !Cold(Shapes(t.lines))
    ensures t.start <= r < t.end <= |a| && Hot(Shapes(a), r)
  {
    hide Hot, StepEnd;
    var k: nat :| Hot(Shapes(t.lines), k);
    HotIsRun(Shapes(t.lines), k);
    r := t.start + k;
    HotInBlock(Shapes(a), t.Block(), r);
  }

  lemma {:induction false} StepCovers(a: seq<Line>, t: Step, m: nat)
    requires StepAt(a, t.start) == Some(t) && t.start <= m < t.end
    ensures t.end <= |a| && Covers(Shapes(a), t.start, m)
  {
    hide StepEnd;
    BlockCovers(Shapes(a), t.Block(), m);
  }

  lemma {:induction false} BlockReplaceable(text: seq<Line>, a: seq<Line>, src: seq<int>, i: nat, t: Step,
                                            ls: seq<Line>, part: seq<int>)
    requires StepsStay(text, a, src, i) && HeatStays(text, a, src, i) && RunsStay(text, a, src, i) && i <= t.start
    requires StepAt(a, t.start) == Some(t) && !Cold(Shapes(t.lines))
    requires forall m: nat | m < |t.lines| && m !in part :: InSomeRun(Shapes(t.lines), m)
    ensures t.start <= t.end <= |src| && Replaceable(text, src, t.start, t.end, part)
  {
    hide *;
    StepLinesForm(a, t);
    var d := BlockWasPytest(text, a, src, i, t);
    forall m: nat | m < t.end - t.start && m !in part && 0 <= src[t.start + m] < |text|
      ensures Goes(text, src[t.start + m])
    {
      BlockUnderRun(a, t, m);
      RunsStayAt(text, a, src, i, t.start, t.start + m);
      StepCovers(a, t, t.start + m);
      StepsStayAt(text, a, src, i, t.start, t.start + m);
      UnderRunGoes(text, src[t.start], src[t.start + m], d);
    }
    forall k: nat | k < |part| && 0 <= part[k] < t.end - t.start && 0 <= src[t.start + part[k]] < |text|
      ensures InSomePytestStep(text, src[t.start + part[k]])
    {
      StepCovers(a, t, t.start + part[k]);
      StepsStayAt(text, a, src, i, t.start, t.start + part[k]);
      SomePytestStep(text, d, src[t.start + part[k]]);
    }
    ReplaceableIf(text, src, t.start, t.end, part);
  }

  lemma {:induction false} ReplaceableIf(text: seq<Line>, src: seq<int>, x: nat, y: nat, part: seq<int>)
    requires x <= y <= |src|
    requires forall m: nat | m < y - x && m !in part && 0 <= src[x + m] < |text| :: Goes(text, src[x + m])
    requires forall k: nat | k < |part| && 0 <= part[k] < y - x && 0 <= src[x + part[k]] < |text| ::
               InSomePytestStep(text, src[x + part[k]])
    ensures Replaceable(text, src, x, y, part)
  {
    hide Goes, InSomePytestStep;
  }

  lemma {:induction false} SomePytestStep(text: seq<Line>, d: nat, m: nat)
    requires InPytestStep(text, d, m)
    ensures InSomePytestStep(text, m)
  {
    hide InPytestStep;
  }

  lemma {:induction false} UnderRunGoes(text: seq<Line>, e: nat, m: nat, d: nat)
    requires UnderRun(Shapes(text), e, m) && Covers(Shapes(text), e, m)
    requires forall k: nat | Covers(Shapes(text), e, k) :: InPytestStep(text, d, k)
    ensures Goes(text, m)
  {
    hide Covers, InRunText, InPytestStep;
    var r: nat :| Covers(Shapes(text), e, r) && InRunText(Shapes(text), r, m);
    assert InPytestStep(text, d, r) && InPytestStep(text, d, m);
  }

  lemma {:induction false} BlockUnderRun(a: seq<Line>, t: Step, m: nat)
    requires StepAt(a, t.start) == Some(t) && m < |t.lines| && InSomeRun(Shapes(t.lines), m)
    ensures UnderRun(Shapes(a), t.start, t.start + m)
  {
    hide StepAt, Covers, InRunText;
    StepLinesForm(a, t);
    var r: nat :| InRunText(Shapes(t.lines), r, m);
    RunTextOfBlock(a, t, r, m);
    RunTextBounds(Shapes(t.lines), r, m);
    StepCovers(a, t, t.start + r);
  }

  lemma {:induction false} RunTextBounds(t: Text, r: nat, x: nat)
    requires InRunText(t, r, x)
    ensures r <= x < |t|
  {
  }

  lemma {:induction false} RunTextOfBlock(a: seq<Line>, t: Step, r: nat, m: nat)
    requires t.start < t.end <= |a| && t.lines == a[t.start..t.end] && InRunText(Shapes(t.lines), r, m)
    ensures InRunText(Shapes(a), t.start + r, t.start + m)
  {
    assert forall y | t.start <= y < t.end :: a[y] == t.lines[y - t.start];
  }

  // ---------------------------------------------------------------- a job is prepared

  lemma {:induction false} AxisLinesAreWritten(lines: seq<Line>, j: Job)
    requires IsJob(lines, j) && MatrixEdit(lines, j.start, j.end).Add?
    ensures var e := MatrixEdit(lines, j.start, j.end); forall k | 0 <= k < |e.lines| :: Written(e.lines[k])
  {
    AxisIsDeeper(lines, j);
    AxisLinesAreRead(lines, j.Bounds());
    hide MatrixEdit, WellRead, IsJob;
  }

  /** Giving a job its axis keeps the map, for what stands below the steps key. */
  lemma {:induction false} TracedAxis(text: seq<Line>, lines: seq<Line>, src: seq<int>, i: nat, b: Job)
    returns (from: seq<int>)
    requires Traced(text, lines, src, i) && LaidOutJob(lines, b) && i <= b.start
    ensures var u, n := Axed(lines, b), |Axed(lines, b)| - |lines|;
            Traced(text, u, from, b.steps + n) && Carried(src, from, b.start + 1, b.steps, b.steps + n)
  {
    hide *;
    LaidOutParts(lines, b);
    JobForm(lines, b);
    AxedForm(lines, b, Step(0, 0, 0, []));
    AxisForm(lines, b.Bounds());
    TracedForm(text, lines, src, i);
    TracedLater(text, lines, src, i, b.steps);
    var e := MatrixEdit(lines, b.start, b.end);
    if e.Add? {
      AxisInHeader(lines, b);
      AxisLinesAreWritten(lines, b);
      from := TracedInsert(text, lines, src, b.steps, e.at, e.lines);
      CarriedLater(src, from, e.at, e.at, e.at + |e.lines|, b.start + 1, b.steps - e.at);
    } else {
      from := src;
      CarriedItself(src, b.start + 1, b.steps);
    }
  }

  lemma {:induction false} MissingAreWritten(names: set<string>, indent: nat)
    requires 0 < indent
    ensures forall k | 0 <= k < |MissingSteps(names, indent)| :: Written(MissingSteps(names, indent)[k])
  {
    hide *;
    MissingFits(names, indent, 0);
    MissingRead(names, indent);
    MissingIsOwn(names, indent);
    MissingWritten(MissingSteps(names, indent));
  }

  lemma {:induction false} MissingWritten(ls: seq<Line>)
    requires JobLines(ls, 0) && AllRead(ls) && forall k | 0 <= k < |ls| :: OwnText(ls[k].text)
    ensures forall k | 0 <= k < |ls| :: Written(ls[k])
  {
    hide WellRead, OwnText;
  }

  lemma {:induction false} MissingIsOwn(names: set<string>, indent: nat)
    ensures forall k | 0 <= k < |MissingSteps(names, indent)| :: OwnText(MissingSteps(names, indent)[k].text)
  {
    hide OwnText, INSTALL_STEP_NAME, SELECT_STEP_NAME, InstallBlock, SelectBlock;
    InstallBlockIsOwn(indent);
    SelectBlockIsOwn(indent);
  }

  lemma {:induction false} InstallBlockIsOwn(indent: nat)
    ensures forall k | 0 <= k < |InstallBlock(indent)| :: OwnText(InstallBlock(indent)[k].text)
  {
    CommandsAreOwn();
    var b := InstallBlock(indent);
    hide INSTALL_RUN_COMMANDS;
    forall k | 0 <= k < |b|
      ensures OwnText(b[k].text)
    {
      if 2 <= k {
        assert b[2..][k - 2] == Indented(INSTALL_RUN_COMMANDS, indent + 4)[k - 2];
        assert b[k].text == INSTALL_RUN_COMMANDS[k - 2];
      }
    }
  }

  lemma {:induction false} SelectBlockIsOwn(indent: nat)
    ensures forall k | 0 <= k < |SelectBlock(indent)| :: OwnText(SelectBlock(indent)[k].text)
  {
    var b := SelectBlock(indent);
    forall k | 0 <= k < |b|
      ensures OwnText(b[k].text)
    {
      if 2 <= k {
        assert b[2..][k - 2] == SelectScript(indent + 4)[k - 2];
        assert b[k].text == SELECT_COMMANDS[k - 2];
      }
    }
  }

  lemma {:induction false} MissingRead(names: set<string>, indent: nat)
    ensures AllRead(MissingSteps(names, indent))
  {
    hide WellRead, MissingSteps;
    if MissingSteps(names, indent) != [] {
      MissingStepsAreSteps(names, indent);
    }
  }

  /** The install script to be replaced is one that may go. */
  ghost predicate ScriptMayGo(text: seq<Line>, u: seq<Line>, src: seq<int>, k: Job) {
    var r := InstallRefresh(u, k.Bounds()); r.Some? ==> AllRefreshGo(text, u, src, r.value.0, r.value.1)
  }

  lemma {:induction false} TracedInstall(text: seq<Line>, u: seq<Line>, src: seq<int>, k: Job) returns (from: seq<int>)
    requires AllRead(u) && IsJob(u, k) && RefreshBelow(u, k) && Traced(text, u, src, k.steps)
    requires ScriptMayGo(text, u, src, k)
    ensures var v, n := AfterRefresh(u, InstallRefresh(u, k.Bounds())), RefreshedJob(u, k);
            Traced(text, v, from, k.steps) && Carried(src, from, k.start + 1, k.end, n.end)
  {
    hide *;
    JobForm(u, k);
    TracedForm(text, u, src, k.steps);
    FrontierForm(u, k, 0);
    var r := InstallRefresh(u, k.Bounds());
    if r.None? {
      from := src;
      CarriedItself(src, k.start + 1, k.end);
    } else {
      var s := InstallParts(u, k);
      InJobForm(k, s.start);
      RefreshedText(u, r.value);
      var q, p := r.value.0, r.value.1;
      ScriptMayGoForm(text, u, src, k);
      from := TracedRefresh(text, u, src, k.steps, s.start, q, p, AfterRefresh(u, r));
      CarriedLater(src, from, q, p, q + 5, k.start + 1, k.end - p);
    }
  }

  lemma {:induction false} ScriptMayGoForm(text: seq<Line>, u: seq<Line>, src: seq<int>, k: Job)
    requires ScriptMayGo(text, u, src, k)
    ensures var r := InstallRefresh(u, k.Bounds()); r.Some? ==> AllRefreshGo(text, u, src, r.value.0, r.value.1)
  {
    hide InstallRefresh, AllRefreshGo;
  }

  /** Ensuring the support steps in place keeps the map, for what stands from the step on. */
  lemma {:induction false} TracedSupport(text: seq<Line>, u: seq<Line>, src: seq<int>, k: Job, s: Step)
    returns (from: seq<int>, m: Job, g: nat)
    requires Stands(u, k, s.start) && StepAt(u, s.start) == Some(s) && s.start < k.end && RefreshBelow(u, k)
    requires !Misplaces(u, k.Bounds(), s) && Traced(text, u, src, k.steps) && ScriptMayGo(text, u, src, k)
    ensures var w := WithSupport(u, k.Bounds(), s);
            Stands(w, m, g) && m.start == k.start && Traced(text, w, from, g)
                && Carried(src, from, k.start + 1, k.end, m.end)
  {
    hide *;
    StandsForm(u, k, s.start);
    var b, w := k.Bounds(), WithSupport(u, k.Bounds(), s);
    m, g := SupportFollows(u, k, s);
    FollowsForm(u, k, s.start, w, m, g);
    var v, n, f := AfterRefresh(u, InstallRefresh(u, b)), RefreshedJob(u, k), Frontier(u, b, s.start);
    FollowsForm(u, k, s.start, v, n, f);
    StandsForm(v, n, f);
    var mid := TracedInstall(text, u, src, k);
    TracedForm(text, v, mid, k.steps);
    TracedLater(text, v, mid, k.steps, f);
    WithSupportForm(u, b, s);
    MisplacedMoves(u, b, s);
    var added := Lacking(u, b, s.indent);
    SameLength(v, f, w, g);
    if added == [] {
      from := mid;
    } else {
      StepForm(u, s);
      DeeperStep(u, k, s.start);
      NamesForm(u, k);
      MissingAreWritten(NamesOfSteps(u, k.start, k.end), s.indent);
      InsertLength(v, f, added);
      from := TracedInsert(text, v, mid, f, f, added);
      CarriedLater(mid, from, f, f, f + |added|, k.start + 1, n.end - f);
      CarriedTwice(src, mid, from, k.start + 1, k.end, n.end, k.start + 1, n.end, n.end + |added|);
    }
  }

  lemma {:induction false} NamesForm(u: seq<Line>, k: Job)
    ensures k.Bounds().0 == k.start && k.Bounds().1 == k.end
  {
  }

  lemma {:induction false} InsertLength(v: seq<Line>, f: nat, ls: seq<Line>)
    requires f <= |v|
    ensures |InsertLines(v, f, ls)| == |v| + |ls|
  {
  }

  lemma {:induction false} DeeperStep(u: seq<Line>, k: Job, f: nat)
    requires IsJob(u, k) && k.steps < f < k.end && u[f].shape.Dash()
    ensures 0 < u[f].Indent()
  {
    DashInJob(u, k, f);
  }

  // ---------------------------------------------------------------- the map of a run

  /** From line `at` on, the lines are those of the first text from `cut` on. */
  ghost predicate TailIs(src: seq<int>, at: nat, cut: nat) {
    forall k: nat | at <= k < |src| :: src[k] == k - at + cut
  }

  ghost predicate StartsMapped(src: seq<int>, places: seq<Place>) {
    forall p | p in places :: p.now.start < |src| && src[p.now.start] == p.origin.start
  }

  ghost predicate Inside(places: seq<Place>, k: nat) { exists p | p in places :: p.now.start < k < p.now.end }

  /** What was written stands in the jobs dealt with. */
  ghost predicate WrittenInside(src: seq<int>, places: seq<Place>) {
    forall k: nat | k < |src| && src[k] < 0 :: Inside(places, k)
  }

  /** The map of a run that stands as `w` says. */
  ghost predicate Mapped(text: seq<Line>, lines: seq<Line>, search: nat, w: World, src: seq<int>) {
    Traced(text, lines, src, search) && TailIs(src, w.at, w.cut) && StartsMapped(src, w.places)
        && WrittenInside(src, w.places)
  }

  lemma {:induction false} MappedForm(text: seq<Line>, lines: seq<Line>, search: nat, w: World, src: seq<int>)
    requires Mapped(text, lines, search, w, src)
    ensures Traced(text, lines, src, search) && TailIs(src, w.at, w.cut) && StartsMapped(src, w.places)
    ensures |src| == |lines| && WrittenInside(src, w.places)
  {
    hide Traced, TailIs, StartsMapped, WrittenInside;
    TracedForm(text, lines, src, search);
  }

  lemma {:induction false} MappedIf(text: seq<Line>, lines: seq<Line>, search: nat, w: World, src: seq<int>)
    requires Traced(text, lines, src, search) && TailIs(src, w.at, w.cut) && StartsMapped(src, w.places)
    requires WrittenInside(src, w.places)
    ensures Mapped(text, lines, search, w, src)
  {
    hide Traced, TailIs, StartsMapped, WrittenInside;
  }

  lemma {:induction false} TailCarried(src: seq<int>, from: seq<int>, x: nat, y: nat, z: nat, at: nat, cut: nat)
    requires Carried(src, from, x, y, z) && TailIs(src, at, cut) && y <= at
    ensures TailIs(from, at - y + z, cut)
  {
    CarriedForm(src, from, x, y, z);
    forall k: nat | at - y + z <= k < |from|
      ensures from[k] == k - (at - y + z) + cut
    {
      assert from[k] == from[z..][k - z] == src[y..][k - z] == src[k - z + y];
    }
  }

  lemma {:induction false} StartsCarried(src: seq<int>, from: seq<int>, x: nat, y: nat, z: nat, places: seq<Place>)
    requires Carried(src, from, x, y, z) && StartsMapped(src, places) && forall p | p in places :: p.now.start < x
    ensures StartsMapped(from, places)
  {
    forall p | p in places
      ensures p.now.start < |from| && from[p.now.start] == p.origin.start
    {
      assert from[p.now.start] == from[..x][p.now.start] == src[..x][p.now.start];
    }
  }

  lemma {:induction false} StartsRegrown(src: seq<int>, w: World, n: int)
    requires w.places != [] && 0 <= w.at + n && 0 <= w.Last().now.end + n && StartsMapped(src, w.places)
    ensures StartsMapped(src, Grow(w, n).places)
  {
    GrowForm(w, n);
    var after := Grow(w, n).places;
    forall p | p in after
      ensures p.now.start < |src| && src[p.now.start] == p.origin.start
    {
      var i :| 0 <= i < |after| && after[i] == p;
      assert w.places[i] in w.places;
    }
  }

  lemma {:induction false} StartsBelow(text: seq<Line>, lines: seq<Line>, places: seq<Place>, x: nat)
    requires Settled(text, lines, places) && places != [] && places[|places| - 1].now.steps < x
    ensures forall p | p in places :: p.now.start < x
  {
    hide Placed, IsJob, AxisSet, LaidOutJob;
    forall p | p in places
      ensures p.now.start < x
    {
      var i :| 0 <= i < |places| && places[i] == p;
      PlacedForm(text, lines, places[i]);
      JobForm(lines, places[i].now);
      PlacedForm(text, lines, places[|places| - 1]);
      JobForm(lines, places[|places| - 1].now);
    }
  }

  lemma {:induction false} InsideRegrown(text: seq<Line>, lines: seq<Line>, src: seq<int>, from: seq<int>, w: World,
                                         x: nat, y: nat, z: nat)
    requires Settled(text, lines, w.places) && WrittenInside(src, w.places) && w.places != []
    requires w.Last().now.end == w.at && y <= w.at && x <= y && w.Last().now.steps < x
    requires Carried(src, from, x, y, x + z)
    ensures var n := z - (y - x); 0 <= w.at + n && WrittenInside(from, Grow(w, n).places)
  {
    hide Placed, IsJob, AxisSet, LaidOutJob;
    var n := z - (y - x);
    GrowForm(w, n);
    CarriedForm(src, from, x, y, x + z);
    var after, last := Grow(w, n).places, w.Last();
    PlacedForm(text, lines, last);
    JobForm(lines, last.now);
    assert after[|after| - 1] in after;
    forall k: nat | k < |from| && from[k] < 0
      ensures Inside(after, k)
    {
      if k < x || x + z <= k {
        var k0 := if k < x then k else k - n;
        assert from[k] == if k < x then from[..x][k] else from[x + z..][k - x - z];
        assert from[k] == if k < x then src[..x][k] else src[y..][k - x - z];
        assert src[k0] == from[k];
        assert Inside(w.places, k0);
        StaysInside(text, lines, w, n, k0, k);
      }
    }
  }

  /** A line of a job dealt with is in the job after it has grown, if it is before the place or moves with what is
      behind it. */
  lemma {:induction false} StaysInside(text: seq<Line>, lines: seq<Line>, w: World, n: int, k: nat, m: nat)
    requires Settled(text, lines, w.places) && w.places != [] && Inside(w.places, k)
    requires 0 <= w.at + n && 0 <= w.Last().now.end + n
    requires m == k || (m == k + n && w.Last().now.start < m && w.Last().now.start < k)
    requires m == k ==> k < w.Last().now.end ==> k < w.Last().now.end + n
    ensures Inside(Grow(w, n).places, m)
  {
    hide Placed;
    GrowForm(w, n);
    var after := Grow(w, n).places;
    var p :| p in w.places && p.now.start < k < p.now.end;
    var i :| 0 <= i < |w.places| && w.places[i] == p;
    assert after[i] in after;
    if i < |w.places| - 1 {
      assert after[i] == w.places[i];
      assert w.places[i].now.end <= w.Last().now.start;
    }
  }

  lemma {:induction false} InsideMore(src: seq<int>, from: seq<int>, w: World, start: nat, y: nat, z: nat, p: Place)
    requires Carried(src, from, start + 1, y, z) && TailIs(src, w.at, w.cut) && w.at <= y
    requires WrittenInside(src, w.places) && p.now.start == start && p.now.end == z
    ensures WrittenInside(from, w.places + [p])
  {
    CarriedForm(src, from, start + 1, y, z);
    assert p in w.places + [p];
    forall k: nat | z <= k < |from|
      ensures 0 <= from[k]
    {
      assert from[k] == from[z..][k - z] == src[y..][k - z] == src[k - z + y];
    }
    forall k: nat | k < |from| && from[k] < 0
      ensures Inside(w.places + [p], k)
    {
      if k <= start {
        assert src[k] == src[..start + 1][k] == from[..start + 1][k];
        var q :| q in w.places && q.now.start < k < q.now.end;
        assert q in w.places + [p];
      }
    }
  }

  /** The map after a step of the last job was rewritten. */
  lemma {:induction false} MappedRewrite(text: seq<Line>, lines: seq<Line>, search: nat, w: World, src: seq<int>,
                                         t: Step, v: World)
    returns (from: seq<int>)
    requires Mapped(text, lines, search, w, src) && Settled(text, lines, w.places) && AllRead(lines)
    requires search <= t.start && StepAt(lines, t.start) == Some(t) && t.end <= w.at && Regrown(w, t, v)
    requires !Cold(Shapes(t.lines)) && w.places != [] && w.Last().now.steps < t.start && w.Last().now.end == w.at
    ensures Mapped(text, Rewriting(lines, t), t.start + |RewriteLines(t.lines, t.indent)|, v, from)
  {
    hide *;
    MappedForm(text, lines, search, w, src);
    RegrownForm(w, t, v);
    LastForm(w);
    var ls := RewriteLines(t.lines, t.indent);
    from := TracedRewrite(text, lines, src, search, t);
    TailCarried(src, from, t.start, t.end, t.start + |ls|, w.at, w.cut);
    StartsBelow(text, lines, w.places, t.start);
    StartsCarried(src, from, t.start, t.end, t.start + |ls|, w.places);
    StartsRegrown(from, w, |ls| - (t.end - t.start));
    CarriedForm(src, from, t.start, t.end, t.start + |ls|);
    InsideRegrown(text, lines, src, from, w, t.start, t.end, |ls|);
    MappedIf(text, Rewriting(lines, t), t.start + |ls|, v, from);
  }

  /** The map after a new job was prepared. */
  lemma {:induction false} MappedReady(text: seq<Line>, s: State, newline: nat, w: World, step: Step, a: Job, b: Job,
                                       src: seq<int>,
                                       m: Job, t: Step) returns (from: seq<int>)
    requires Arrives(text, s, newline, w, step, a, b) && Mapped(text, s.lines, s.search, w, src)
    requires InText(text, a.Bounds()) && !MatrixEdit(text, a.start, a.end).Conflict?
    requires !Stale(text, a, OriginStep(text, Origin(w, step)))
    requires InText(s.lines, b.Bounds())
    requires var u, k, s1 := Axed(s.lines, b), AxedJob(s.lines, b), AxedStep(s.lines, b, step);
             Ready(s.lines, b, step, WithSupport(u, k.Bounds(), s1), m, t)
    ensures var u, k, s1 := Axed(s.lines, b), AxedJob(s.lines, b), AxedStep(s.lines, b, step);
            Mapped(text, WithSupport(u, k.Bounds(), s1), t.start, World(a.end, m.end, w.places + [Place(a, m)]), from)
  {
    hide *;
    ArrivesForm(text, s, newline, w, step, a, b);
    JobArrived(text, s, newline, w, step, a, b);
    InvForm(text, s, newline, w);
    LayoutForm(text, s.lines, s.search, w);
    MappedForm(text, s.lines, s.search, w, src);
    LaidOutParts(s.lines, b);
    AxisHeads(s.lines, b, step);
    AxedForm(s.lines, b, step);
    StaleForm(s.lines, b, step);
    var u, k, s1 := Axed(s.lines, b), AxedJob(s.lines, b), AxedStep(s.lines, b, step);
    AxedStands(s.lines, b, u, k, s1);
    HeadsForm(u, b.start, s1);
    var p, n := WithSupport(u, k.Bounds(), s1), |u| - |s.lines|;
    ReadyForm(s.lines, b, step, p, m, t);
    JobForm(p, m);
    var mid := TracedAxis(text, s.lines, src, s.search, b);
    var m1, g;
    StandsForm(u, k, s1.start);
    ArrivedTail(text, s, newline, w, step, a, b, src, mid, b.steps + n);
    ArrivedScript(text, s, newline, w, step, a, b, mid);
    from, m1, g := TracedSupport(text, u, mid, k, s1);
    HeadBehind(p, m1, g, t);
    TracedLater(text, p, from, g, t.start);
    CarriedLater(src, mid, b.start + 1, b.steps, b.steps + n, b.start + 1, b.end - b.steps);
    CarriedTwice(src, mid, from, b.start + 1, b.end, b.end + n, b.start + 1, k.end, m1.end);
    TracedForm(text, p, from, g);
    SameEnds(s.lines, b.end, p, m.end, src, from, b.start + 1, m1.end);
    MappedThrough(text, s, newline, w, step, a, b, src, p, m, from);
    MappedIf(text, p, t.start, World(a.end, m.end, w.places + [Place(a, m)]), from);
  }

  /** Which script of a job is replaced does not depend on what stands before the job. */
  lemma {:induction false} SameScript(text: seq<Line>, i: nat, lines: seq<Line>, j: nat, a: Job)
    requires SameFrom(text, i, lines, j) && LaidOutJob(text, a) && i <= a.start
    ensures var b := a.By(j - i);
            && InText(text, a.Bounds()) && InText(lines, b.Bounds())
            && |Axed(lines, b)| - |lines| == |Axed(text, a)| - |text|
            && var r0, r := InstallRefresh(Axed(text, a), AxedJob(text, a).Bounds()),
                            InstallRefresh(Axed(lines, b), AxedJob(lines, b).Bounds());
               r.Some? ==> r0.Some? && r.value == (r0.value.0 + j - i, r0.value.1 + j - i)
  {
    hide *;
    LaidOutParts(text, a);
    JobForm(text, a);
    ByForm(a, j - i);
    AxedShifts(text, i, lines, j, a, Step(i, i, 0, []));
    AxedForm(text, a, Step(0, 0, 0, []));
    var u, k := Axed(text, a), AxedJob(text, a);
    BoundsForm(k, j - i);
    NamesForm(u, k);
    RefreshShifts(u, i, Axed(lines, a.By(j - i)), j, k.Bounds());
    var r := InstallRefresh(u, k.Bounds());
    if r.Some? {
      BoundsByForm(r.value, j - i);
    }
  }

  lemma {:induction false} ArrivedTail(text: seq<Line>, s: State, newline: nat, w: World, step: Step, a: Job, b: Job,
                                       src: seq<int>, mid: seq<int>, z: nat)
    requires Arrives(text, s, newline, w, step, a, b) && TailIs(src, w.at, w.cut) && |src| == |s.lines|
    requires Carried(src, mid, b.start + 1, b.steps, z) && LaidOutJob(s.lines, b)
    requires Traced(text, Axed(s.lines, b), mid, z)
    ensures TailIs(mid, z, a.steps) && |mid| == |Axed(s.lines, b)|
  {
    hide *;
    ArrivesForm(text, s, newline, w, step, a, b);
    FirstOfJobForm(text, a, Origin(w, step));
    LaidOutForm(text, a);
    LaidOutForm(s.lines, b);
    TracedForm(text, Axed(s.lines, b), mid, z);
    TailLater(src, w.at, w.cut, b.steps - w.at);
    TailCarried(src, mid, b.start + 1, b.steps, z, b.steps, a.steps);
  }

  /** The script replaced in a job that the run arrives at may go. */
  lemma {:induction false} ArrivedScript(text: seq<Line>, s: State, newline: nat, w: World, step: Step, a: Job, b: Job,
                                         mid: seq<int>)
    requires Arrives(text, s, newline, w, step, a, b) && InText(s.lines, b.Bounds()) && |mid| == |Axed(s.lines, b)|
    requires TailIs(mid, b.steps + |Axed(s.lines, b)| - |s.lines|, a.steps)
    requires AllRead(Axed(s.lines, b)) && IsJob(Axed(s.lines, b), AxedJob(s.lines, b))
    requires RefreshBelow(Axed(s.lines, b), AxedJob(s.lines, b))
    ensures ScriptMayGo(text, Axed(s.lines, b), mid, AxedJob(s.lines, b))
  {
    hide *;
    ArrivesForm(text, s, newline, w, step, a, b);
    InvForm(text, s, newline, w);
    LayoutForm(text, s.lines, s.search, w);
    FirstOfJobForm(text, a, Origin(w, step));
    LaidOutForm(text, a);
    ByForm(a, w.at - w.cut);
    SameScript(text, w.cut, s.lines, w.at, a);
    var u, k, n := Axed(s.lines, b), AxedJob(s.lines, b), |Axed(s.lines, b)| - |s.lines|;
    AxedForm(s.lines, b, Step(0, 0, 0, []));
    var r := InstallRefresh(u, k.Bounds());
    if r.Some? {
      var t := InstallParts(u, k);
      InJobForm(k, t.start);
      JobForm(u, k);
      forall x: nat | r.value.0 <= x < r.value.1 && 0 <= mid[x]
        ensures RefreshGoes(text, mid[x])
      {
        TailAt(mid, b.steps + n, a.steps, x);
        RefreshesIf(text, a, Origin(w, step), mid[x]);
      }
      AllRefreshGoIf(text, u, mid, r.value.0, r.value.1);
    }
    ScriptMayGoIf(text, u, mid, k);
  }

  lemma {:induction false} BoundsByForm(b: Bounds, n: int)
    requires 0 <= b.0 + n && 0 <= b.1 + n
    ensures BoundsBy(b, n).0 == b.0 + n && BoundsBy(b, n).1 == b.1 + n
  {
  }

  lemma {:induction false} TailAt(src: seq<int>, at: nat, cut: nat, k: nat)
    requires TailIs(src, at, cut) && at <= k < |src|
    ensures src[k] == k - at + cut
  {
  }

  lemma {:induction false} RefreshesIf(text: seq<Line>, j: Job, d: nat, m: nat)
    requires LaidOutJob(text, j) && j.steps < d < j.end && PytestStep(text, d) && InText(text, j.Bounds())
    requires var n, r := |Axed(text, j)| - |text|, InstallRefresh(Axed(text, j), AxedJob(text, j).Bounds());
             r.Some? && r.value.0 <= m + n < r.value.1
    ensures RefreshGoes(text, m)
  {
    hide LaidOutJob, PytestStep, InstallRefresh, Axed;
    assert j.Holds(d) && HoldsPytest(text, j);
    assert Refreshes(text, j, m);
  }

  lemma {:induction false} AllRefreshGoIf(text: seq<Line>, a: seq<Line>, src: seq<int>, q: nat, p: nat)
    requires q <= p <= |a| == |src| && forall k: nat | q <= k < p && 0 <= src[k] :: RefreshGoes(text, src[k])
    ensures AllRefreshGo(text, a, src, q, p)
  {
    hide RefreshGoes;
  }

  lemma {:induction false} ScriptMayGoIf(text: seq<Line>, u: seq<Line>, src: seq<int>, k: Job)
    requires var r := InstallRefresh(u, k.Bounds()); r.Some? ==> AllRefreshGo(text, u, src, r.value.0, r.value.1)
    ensures ScriptMayGo(text, u, src, k)
  {
    hide InstallRefresh, AllRefreshGo;
  }

  /** The map of the prepared text carries the jobs dealt with, and the new one. */
  lemma {:induction false} MappedThrough(text: seq<Line>, s: State, newline: nat, w: World, step: Step, a: Job, b: Job,
                                         src: seq<int>, p: seq<Line>, m: Job, from: seq<int>)
    requires Arrives(text, s, newline, w, step, a, b) && Mapped(text, s.lines, s.search, w, src)
    requires Carried(src, from, b.start + 1, b.end, m.end) && m.start == b.start && |from| == |p|
    ensures var v := World(a.end, m.end, w.places + [Place(a, m)]);
            TailIs(from, v.at, v.cut) && StartsMapped(from, v.places) && WrittenInside(from, v.places)
  {
    hide *;
    ArrivesForm(text, s, newline, w, step, a, b);
    JobArrived(text, s, newline, w, step, a, b);
    InvForm(text, s, newline, w);
    MappedForm(text, s.lines, s.search, w, src);
    FirstOfJobForm(text, a, Origin(w, step));
    LaidOutForm(text, a);
    TailLater(src, w.at, w.cut, b.end - w.at);
    TailCarried(src, from, b.start + 1, b.end, m.end, b.end, a.end);
    PlacesEnd(text, s.lines, s.search, w);
    StartsCarried(src, from, b.start + 1, b.end, m.end, w.places);
    StartMapped(src, from, b.start, b.end, m.end, w, a, m);
    InsideMore(src, from, w, b.start, b.end, m.end, Place(a, m));
  }

  lemma {:induction false} SameEnds(lines: seq<Line>, e: nat, p: seq<Line>, m: nat, src: seq<int>, from: seq<int>,
                                    x: nat, m1: nat)
    requires SameFrom(lines, e, p, m) && |src| == |lines| && |from| == |p| && Carried(src, from, x, e, m1)
    ensures m1 == m
  {
    SameLength(lines, e, p, m);
    CarriedForm(src, from, x, e, m1);
  }

  lemma {:induction false} TailLater(src: seq<int>, at: nat, cut: nat, n: nat)
    requires TailIs(src, at, cut)
    ensures TailIs(src, at + n, cut + n)
  {
  }

  lemma {:induction false} StartMapped(src: seq<int>, from: seq<int>, start: nat, y: nat, z: nat, w: World, a: Job,
                                       m: Job)
    requires Carried(src, from, start + 1, y, z) && TailIs(src, w.at, w.cut) && w.at <= start
    requires start - w.at + w.cut == a.start
    requires StartsMapped(from, w.places) && m.start == start
    ensures StartsMapped(from, w.places + [Place(a, m)])
  {
    CarriedForm(src, from, start + 1, y, z);
    assert from[start] == from[..start + 1][start] == src[..start + 1][start] == src[start];
  }
}
