/** What a run may change of a text: the lines that may go, and the lines that may be marked. */
module LineFrames {
  import opened PyStrings
  import opened StepBlocks
  import opened WorkflowLines
  import opened StepNames
  import opened StepRewriter
  import opened TextPatcher
  import opened WorkflowPatcher
  import opened JobLayouts
  import opened JobPreparation

  /** Line `m` belongs to the step opened at line `d`, which runs pytest. */
  ghost predicate InPytestStep(text: seq<Line>, d: nat, m: nat) {
    PytestStep(text, d) && d <= m < StepAt(text, d).value.end
  }

  ghost predicate InSomePytestStep(text: seq<Line>, m: nat) { exists d: nat :: InPytestStep(text, d, m) }

  /** Line `m` belongs to a run key, and both to the same step, which runs pytest. */
  ghost predicate RunTextGoes(text: seq<Line>, m: nat) {
    exists d: nat, r: nat ::
      InPytestStep(text, d, r) && InPytestStep(text, d, m) && InRunText(Shapes(text), r, m)
  }

  ghost predicate HoldsPytest(text: seq<Line>, j: Job) { exists d: nat :: j.Holds(d) && PytestStep(text, d) }

  /** Line `m` is in the script of the install step that is replaced when job `j` is prepared. */
  ghost predicate Refreshes(text: seq<Line>, j: Job, m: nat) {
    && LaidOutJob(text, j) && HoldsPytest(text, j)
    && var n, r := |Axed(text, j)| - |text|, InstallRefresh(Axed(text, j), AxedJob(text, j).Bounds());
       r.Some? && r.value.0 <= m + n < r.value.1
  }

  ghost predicate RefreshGoes(text: seq<Line>, m: nat) { exists j: Job :: Refreshes(text, j, m) }

  /** Line `m` may go. */
  ghost predicate Goes(text: seq<Line>, m: nat) {
    InSomeRun(Shapes(text), m) && (RunTextGoes(text, m) || RefreshGoes(text, m))
  }

  /** What line `m` may have become: nothing but the suffix is added, and only to a name line of a step that runs
      pytest. */
  ghost predicate FromLine(text: seq<Line>, m: nat, l: Line)
    requires m < |text|
  {
    l == text[m] || (Named(text[m].text) && InSomePytestStep(text, m) && l == Suffixed(text[m]))
  }

  /** `src[k]` is the index in the text of the line that became `lines[k]`, or -1 for one that the patcher wrote.  The
      lines of the text are in order, and none is missing that may not go. */
  ghost predicate Framed(text: seq<Line>, lines: seq<Line>, src: seq<int>) {
    && |src| == |lines|
    && (forall k | 0 <= k < |src| :: -1 <= src[k] < |text|)
    && (forall k | 0 <= k < |src| && 0 <= src[k] :: FromLine(text, src[k], lines[k]))
    && (forall k | 0 <= k < |src| && src[k] < 0 :: Written(lines[k]))
    && (forall j, k | 0 <= j < k < |src| && 0 <= src[j] && 0 <= src[k] :: src[j] < src[k])
    && (forall m: nat | m < |text| && m !in src :: Goes(text, m))
  }

  lemma {:induction false} FramedForm(text: seq<Line>, lines: seq<Line>, src: seq<int>)
    requires Framed(text, lines, src)
    ensures |src| == |lines| && forall k | 0 <= k < |src| :: -1 <= src[k] < |text|
    ensures forall k | 0 <= k < |src| && 0 <= src[k] :: FromLine(text, src[k], lines[k])
    ensures forall k | 0 <= k < |src| && src[k] < 0 :: Written(lines[k])
    ensures forall j, k | 0 <= j < k < |src| && 0 <= src[j] && 0 <= src[k] :: src[j] < src[k]
    ensures forall m: nat | m < |text| && m !in src :: Goes(text, m)
  {
    hide FromLine, Written, Goes;
  }

  lemma {:induction false} FramedIf(text: seq<Line>, lines: seq<Line>, src: seq<int>)
    requires |src| == |lines| && forall k | 0 <= k < |src| :: -1 <= src[k] < |text|
    requires forall k | 0 <= k < |src| && 0 <= src[k] :: FromLine(text, src[k], lines[k])
    requires forall k | 0 <= k < |src| && src[k] < 0 :: Written(lines[k])
    requires forall j, k | 0 <= j < k < |src| && 0 <= src[j] && 0 <= src[k] :: src[j] < src[k]
    requires forall m: nat | m < |text| && m !in src :: Goes(text, m)
    ensures Framed(text, lines, src)
  {
    hide FromLine, Written, Goes;
  }

  /** In particular, only lines of run keys are missing. */
  lemma {:induction false} FramedIsKept(text: seq<Line>, lines: seq<Line>, src: seq<int>)
    requires Framed(text, lines, src)
    ensures Kept(text, lines, src, |text|)
  {
    hide *;
    FramedForm(text, lines, src);
    forall k | 0 <= k < |src| && 0 <= src[k]
      ensures KeptLine(text[src[k]], lines[k])
    {
      FromLineForm(text, src[k], lines[k]);
    }
    forall m: nat | m < |text| && m !in src
      ensures InSomeRun(Shapes(text), m)
    {
      GoesForm(text, m);
    }
    KeptIf(text, lines, src, |text|);
  }

  lemma {:induction false} FromLineForm(text: seq<Line>, m: nat, l: Line)
    requires m < |text| && FromLine(text, m, l)
    ensures KeptLine(text[m], l)
    ensures l != text[m] ==> Named(text[m].text) && InSomePytestStep(text, m)
  {
    hide Named, Suffixed, InSomePytestStep;
  }

  lemma {:induction false} GoesForm(text: seq<Line>, m: nat)
    requires Goes(text, m)
    ensures InSomeRun(Shapes(text), m) && (RunTextGoes(text, m) || RefreshGoes(text, m))
  {
    hide InSomeRun, RunTextGoes, RefreshGoes;
  }

  // ---------------------------------------------------------------- steps and the dashes inside them

  lemma {:induction false} CoverChain(t: Text, d: nat, e: nat, m: nat)
    requires Covers(t, d, e) && Covers(t, e, m)
    ensures Covers(t, d, m)
  {
    forall y | d < y <= m
      ensures !t[y].Ends(t[d].indent)
    {
      if e < y {
        assert !t[y].Ends(t[e].indent);
        assert d < e ==> !t[e].Ends(t[d].indent);
      }
    }
  }

  lemma {:induction false} CoverInBlock(text: seq<Line>, d: nat, m: nat)
    requires Covers(Shapes(text), d, m)
    ensures StepAt(text, d).Some? && d <= m < StepAt(text, d).value.end
  {
    hide StepEnd;
    var t := Shapes(text);
    assert t[d] == text[d].shape;
    var s := StepAt(text, d).value;
    assert s.end < |text| ==> t[s.end].Ends(s.indent);
  }

  lemma {:induction false} HotStep(text: seq<Line>, d: nat, r: nat)
    requires Covers(Shapes(text), d, r) && Hot(Shapes(text), r) && Aligned(Shapes(text), d)
    ensures PytestStep(text, d)
  {
    hide Hot, Covers, Aligned, StepAt;
    CoverInBlock(text, d, r);
    var s := StepAt(text, d).value;
    StepHere(text, d);
    HotInBlock(Shapes(text), s.Block(), r);
    assert Hot(Shapes(s.lines), r - d);
  }

  lemma {:induction false} StepHere(text: seq<Line>, d: nat)
    requires StepAt(text, d).Some?
    ensures var s := StepAt(text, d).value;
            && s.start == d == s.Block().start && s.Block().end == s.end && s.Block().lines == Shapes(s.lines)
            && IsBlock(Shapes(text), s.Block()) && d < s.end <= |text| && s.lines == text[d..s.end]
  {
    hide StepEnd, IsBlock;
  }

  /** A dash that covers a hot run key is in a step that runs pytest, with all that it covers. */
  lemma {:induction false} OuterStep(text: seq<Line>, e: nat, r: nat) returns (d: nat)
    requires Covers(Shapes(text), e, r) && Hot(Shapes(text), r)
    ensures d <= e && forall m: nat | Covers(Shapes(text), e, m) :: InPytestStep(text, d, m)
    decreases e
  {
    hide Covers, Hot, StepAt;
    if Aligned(Shapes(text), e) {
      hide Aligned;
      d := e;
      HotStep(text, e, r);
      forall m: nat | Covers(Shapes(text), e, m)
        ensures InPytestStep(text, d, m)
      {
        CoverInBlock(text, e, m);
      }
    } else {
      CoverBounds(Shapes(text), e, r);
      var c: nat :| c < e && Covers(Shapes(text), c, e);
      hide Aligned;
      CoverChain(Shapes(text), c, e, r);
      d := OuterStep(text, c, r);
      forall m: nat | Covers(Shapes(text), e, m)
        ensures InPytestStep(text, d, m)
      {
        CoverChain(Shapes(text), c, e, m);
      }
    }
  }

  lemma {:induction false} CoverBounds(t: Text, d: nat, m: nat)
    requires Covers(t, d, m)
    ensures d <= m < |t|
  {
  }

  // ---------------------------------------------------------------- what stays

  /** The line stands in the new text as it was. */
  ghost predicate Stays(text: seq<Line>, lines: seq<Line>, src: seq<int>, m: nat)
    requires m < |text| && |src| == |lines|
  {
    exists k: nat :: k < |src| && src[k] == m && lines[k] == text[m]
  }

  /** A line outside the steps that run pytest stays as it is, if it is not in an install script that is replaced. */
  lemma {:induction false} OtherLineStays(text: seq<Line>, lines: seq<Line>, src: seq<int>, m: nat)
    requires Framed(text, lines, src) && m < |text| && !InSomePytestStep(text, m) && !RefreshGoes(text, m)
    ensures |src| == |lines| && Stays(text, lines, src, m)
  {
    hide *;
    FramedForm(text, lines, src);
    if m !in src {
      GoesForm(text, m);
      RunTextInStep(text, m);
    } else {
      var k: nat :| k < |src| && src[k] == m;
      FromLineForm(text, m, lines[k]);
      StaysIf(text, lines, src, m, k);
    }
  }

  lemma {:induction false} StaysIf(text: seq<Line>, lines: seq<Line>, src: seq<int>, m: nat, k: nat)
    requires m < |text| && |src| == |lines| && k < |src| && src[k] == m && lines[k] == text[m]
    ensures Stays(text, lines, src, m)
  {
  }

  lemma {:induction false} RunTextInStep(text: seq<Line>, m: nat)
    ensures RunTextGoes(text, m) ==> InSomePytestStep(text, m)
  {
    hide InPytestStep, InRunText;
  }

  /** The lines of a step that runs no pytest belong to no step that does. */
  lemma {:induction false} QuietStepApart(text: seq<Line>, s: Step, m: nat)
    requires StepAt(text, s.start) == Some(s) && Cold(Shapes(s.lines)) && Aligned(Shapes(text), s.start)
    requires s.start <= m < s.end
    ensures !InSomePytestStep(text, m)
  {
    if d: nat :| InPytestStep(text, d, m) {
      hide StepAt, Cold;
      StepHere(text, d);
      StepHere(text, s.start);
      var e := StepAt(text, d).value;
      if d < s.start {
        BlockCovers(Shapes(text), e.Block(), s.start);
      } else if s.start < d {
        BlockCovers(Shapes(text), s.Block(), d);
      }
    }
  }
}
