/** The header of a job decides about its axis, and the axis it is given stays. */
module JobHeaders {
  import opened PyStrings
  import opened StepBlocks
  import opened WorkflowLines
  import opened StepRewriter
  import opened JobMatrix
  import opened TextPatcher
  import opened WorkflowPatcher
  import opened JobLayouts

  predicate Inline(l: Line) { Strip(l.text) != "mode:" }

  /** The list of modes, if there is one, ends before the steps key. */
  predicate ListEnds(lines: seq<Line>, mode: nat, steps: nat)
    requires mode < |lines| && steps < |lines|
  {
    Inline(lines[mode]) || lines[steps].Indent() <= lines[mode].Indent()
  }

  /** The lines before the steps key hold the wanted axis. */
  ghost predicate AxisSet(lines: seq<Line>, j: Job) {
    && j.start < j.steps < |lines| && !lines[j.steps].shape.Blank()
    && var f := ScanHeader(lines, j.start, j.steps);
       f.mode.Some? && Modes(lines, f.mode.value) == MATRIX_MODES && ListEnds(lines, f.mode.value, j.steps)
  }

  /** What the header says about the axis is all that the job says about it, and no line to be written for the axis
      would itself be taken for the key of the job. */
  ghost predicate HeaderDecides(lines: seq<Line>, j: Job)
    requires IsJob(lines, j)
  {
    var f, e := ScanHeader(lines, j.start, j.end), MatrixEdit(lines, j.start, j.end);
    && ScanHeader(lines, j.start, j.steps) == f
    && (f.mode.Some? ==> ListEnds(lines, f.mode.value, j.steps))
    && (e.Add? ==> forall k | 0 <= k < |e.lines| :: !JobKey(e.lines[k], lines[j.steps].Indent()))
  }

  // ---------------------------------------------------------------- the axis stays

  lemma {:induction false} ScanPrefix(a: seq<Line>, b: seq<Line>, i: nat, end: nat, job: nat, f: Found)
    requires i <= end && SameUpTo(a, b, end) && Before(a, f, i)
    ensures Before(b, f, i) && ScanMatrix(b, i, end, job, f) == ScanMatrix(a, i, end, job, f)
    decreases end - i
  {
    ScanStep(a, i, end, job, f);
    ScanStep(b, i, end, job, f);
    if i < end {
      SameStops(a, b, job, f, i, end);
      hide ScanMatrix, Stops;
      var n := Noted(f, a[i], i);
      if !Stops(a, job, f, i) && n.mode.None? {
        ScanPrefix(a, b, i + 1, end, job, n);
      }
    }
  }

  /** What is found before `e1` is found by a longer scan. */
  lemma {:induction false} ScanLonger(lines: seq<Line>, i: nat, e1: nat, e2: nat, job: nat, f: Found)
    requires i <= e1 <= e2 <= |lines| && Before(lines, f, i) && ScanMatrix(lines, i, e1, job, f).mode.Some?
    ensures ScanMatrix(lines, i, e2, job, f) == ScanMatrix(lines, i, e1, job, f)
    decreases e1 - i
  {
    ScanStep(lines, i, e1, job, f);
    ScanStep(lines, i, e2, job, f);
    if i < e1 {
      var n := Noted(f, lines[i], i);
      hide ScanMatrix, Stops;
      if !Stops(lines, job, f, i) && n.mode.None? {
        ScanLonger(lines, i + 1, e1, e2, job, n);
      }
    }
  }

  lemma {:induction false} ListedPrefix(a: seq<Line>, b: seq<Line>, x: nat, steps: nat, indent: nat)
    requires x <= steps < |a| && SameUpTo(a, b, steps + 1) && !a[steps].shape.Blank() && a[steps].Indent() <= indent
    ensures ListedModes(b, x, indent) == ListedModes(a, x, indent)
    decreases steps - x
  {
    hide Strip, StripSet;
    if x < steps {
      ListedPrefix(a, b, x + 1, steps, indent);
    }
  }

  lemma {:induction false} ModesPrefix(a: seq<Line>, b: seq<Line>, mode: nat, steps: nat)
    requires mode < steps < |a| && SameUpTo(a, b, steps + 1) && !a[steps].shape.Blank() && ListEnds(a, mode, steps)
    ensures Modes(b, mode) == Modes(a, mode)
  {
    hide Strip, StripSet;
    if !Inline(a[mode]) {
      ListedPrefix(a, b, mode + 1, steps, a[mode].Indent());
    }
  }

  /** The axis of a job stays as long as the lines up to the steps key do. */
  lemma {:induction false} AxisStays(a: seq<Line>, b: seq<Line>, j: Job, k: Job)
    requires AxisSet(a, j) && SameUpTo(a, b, j.steps + 1) && k.start == j.start && k.steps == j.steps
    ensures AxisSet(b, k)
  {
    hide Strip, MATRIX_MODES, ScanMatrix, Modes;
    ScanPrefix(a, b, j.start + 1, j.steps, a[j.start].Indent(), NOTHING);
    ModesPrefix(a, b, ScanHeader(a, j.start, j.steps).mode.value, j.steps);
  }

  /** A job whose header holds the axis is left as it is. */
  lemma {:induction false} SetIsExisting(lines: seq<Line>, j: Job)
    requires AxisSet(lines, j) && j.steps < j.end <= |lines|
    ensures MatrixEdit(lines, j.start, j.end) == Existing
    ensures ScanHeader(lines, j.start, j.end) == ScanHeader(lines, j.start, j.steps)
  {
    hide Strip, MATRIX_MODES, ScanMatrix, Modes, MatrixEdit;
    ScanLonger(lines, j.start + 1, j.steps, j.end, lines[j.start].Indent(), NOTHING);
    ExistingForm(lines, j.start, j.end);
  }

  // ---------------------------------------------------------------- the job after an edit

  /** Lines that may stand in a job: deeper than its key, and no steps key. */
  ghost predicate JobLines(ls: seq<Line>, key: nat) {
    forall k | 0 <= k < |ls| :: !OpensSteps(ls[k]) && (ls[k].shape.Blank() || key < ls[k].Indent())
  }

  lemma {:induction false} SplicedAt(a: seq<Line>, x: nat, y: nat, ls: seq<Line>, u: seq<Line>)
    requires x <= y <= |a| && u == a[..x] + ls + a[y..]
    ensures |u| == |a| - (y - x) + |ls| && SameUpTo(a, u, x)
    ensures forall k | x <= k < x + |ls| :: u[k] == ls[k - x]
    ensures forall k | x + |ls| <= k < |u| :: u[k] == a[k - |ls| + (y - x)]
    ensures SameFrom(a, y, u, x + |ls|)
  {
  }

  /** A job below whose steps key some lines are replaced. */
  lemma {:induction false} JobSpliced(a: seq<Line>, j: Job, x: nat, y: nat, ls: seq<Line>, u: seq<Line>)
    requires IsJob(a, j) && j.steps < x <= y <= j.end && JobLines(ls, a[j.start].Indent()) && u == a[..x] + ls + a[y..]
    ensures IsJob(u, j.Grown(0, |ls| - (y - x)))
  {
    SplicedAt(a, x, y, ls, u);
    hide OpensSteps, JobKey;
    var k := j.Grown(0, |ls| - (y - x));
    forall i | j.start < i < k.end
      ensures OpensSteps(u[i]) <==> i == j.steps
      ensures u[i].shape.Blank() || u[j.start].Indent() < u[i].Indent()
    {
    }
  }

  /** A line of the job whose header got more lines. */
  lemma {:induction false} HeaderLine(a: seq<Line>, j: Job, x: nat, ls: seq<Line>, u: seq<Line>, i: nat)
    requires IsJob(a, j) && j.start < x <= j.steps && JobLines(ls, a[j.start].Indent()) && u == InsertLines(a, x, ls)
    requires forall k | 0 <= k < |ls| :: !JobKey(ls[k], a[j.steps].Indent())
    requires j.start < i < j.end + |ls| && |u| == |a| + |ls|
    ensures OpensSteps(u[i]) <==> i == j.steps + |ls|
    ensures u[i].shape.Blank() || a[j.start].Indent() < u[i].Indent()
    ensures i < j.steps + |ls| ==> !JobKey(u[i], a[j.steps].Indent())
  {
    hide OpensSteps, JobKey;
    if i < x {
      assert u[i] == a[i];
    } else if i < x + |ls| {
      assert u[i] == ls[i - x];
    } else {
      assert u[i] == a[i - |ls|];
    }
  }

  lemma {:induction false} IsJobIf(lines: seq<Line>, j: Job)
    requires j.start < j.steps < j.end <= |lines| && JobKey(lines[j.start], lines[j.steps].Indent())
    requires forall k | j.start < k < j.end :: OpensSteps(lines[k]) <==> k == j.steps
    requires forall k | j.start < k < j.steps :: !JobKey(lines[k], lines[j.steps].Indent())
    requires forall k | j.start < k < j.end :: lines[k].shape.Blank() || lines[j.start].Indent() < lines[k].Indent()
    requires j.end < |lines| ==> !lines[j.end].shape.Blank() && lines[j.end].Indent() <= lines[j.start].Indent()
    ensures IsJob(lines, j)
  {
    hide OpensSteps, JobKey;
  }

  lemma {:induction false} JobEnds(lines: seq<Line>, j: Job)
    requires IsJob(lines, j)
    ensures j.start < j.steps < j.end <= |lines| && JobKey(lines[j.start], lines[j.steps].Indent())
    ensures j.end < |lines| ==> !lines[j.end].shape.Blank() && lines[j.end].Indent() <= lines[j.start].Indent()
  {
    hide OpensSteps, JobKey;
  }

  lemma {:induction false} HeaderSpliced(a: seq<Line>, j: Job, x: nat, ls: seq<Line>, u: seq<Line>)
    requires IsJob(a, j) && j.start < x <= j.steps && JobLines(ls, a[j.start].Indent()) && u == InsertLines(a, x, ls)
    requires forall k | 0 <= k < |ls| :: !JobKey(ls[k], a[j.steps].Indent())
    ensures IsJob(u, j.Grown(|ls|, |ls|))
  {
    hide *;
    JobEnds(a, j);
    var n := |ls|;
    LineBehind(a, x, ls, j.steps);
    LineAhead(a, x, ls, j.start);
    if j.end < |a| {
      LineBehind(a, x, ls, j.end);
    }
    forall i | j.start < i < j.end + n
      ensures OpensSteps(u[i]) <==> i == j.steps + n
      ensures u[i].shape.Blank() || a[j.start].Indent() < u[i].Indent()
      ensures i < j.steps + n ==> !JobKey(u[i], a[j.steps].Indent())
    {
      HeaderLine(a, j, x, ls, u, i);
    }
    GrownParts(j, n);
    IsJobIf(u, Job(j.start, j.steps + n, j.end + n));
  }

  lemma {:induction false} LineAhead(lines: seq<Line>, at: nat, ls: seq<Line>, k: nat)
    requires k < at <= |lines|
    ensures |InsertLines(lines, at, ls)| == |lines| + |ls| && InsertLines(lines, at, ls)[k] == lines[k]
  {
  }

  lemma {:induction false} GrownParts(j: Job, n: nat)
    ensures j.Grown(n, n) == Job(j.start, j.steps + n, j.end + n) && j.Grown(n, n).Bounds() == (j.start, j.end + n)
  {
  }

  lemma {:induction false} JobStays(a: seq<Line>, b: seq<Line>, j: Job)
    requires IsJob(a, j) && j.end < |a| && SameUpTo(a, b, j.end + 1)
    ensures IsJob(b, j)
  {
    hide OpensSteps, JobKey;
  }

  // ---------------------------------------------------------------- giving a job its axis

  lemma {:induction false} StepsIndexIs(lines: seq<Line>, i: nat, end: nat, none: nat, steps: nat)
    requires i <= steps < end <= |lines| && OpensSteps(lines[steps])
    requires forall k | i <= k < steps :: !OpensSteps(lines[k])
    ensures StepsIndex(lines, i, end, none) == steps
    decreases steps - i
  {
    if i < steps {
      StepsIndexIs(lines, i + 1, end, none, steps);
    }
  }

  /** Where the axis is written: in the header. */
  lemma {:induction false} AxisInHeader(lines: seq<Line>, j: Job)
    requires IsJob(lines, j) && HeaderDecides(lines, j) && MatrixEdit(lines, j.start, j.end).Add?
    ensures MatrixEdit(lines, j.start, j.end).at <= j.steps
  {
    hide MatrixEdit, ScanMatrix, StepsIndex, JobKey, ListEnds, StrategyLine, MatrixLine, ModeLine;
    MatrixForm(lines, j.start, j.end);
    StepsIndexIs(lines, j.start + 1, j.end, j.start + 1, j.steps);
  }

  lemma {:induction false} HeaderScan(lines: seq<Line>, j: Job)
    requires IsJob(lines, j) && HeaderDecides(lines, j)
    ensures ScanHeader(lines, j.start, j.steps) == ScanHeader(lines, j.start, j.end)
    ensures forall k | j.start < k < j.steps :: lines[k].shape.Blank() || lines[j.start].Indent() < lines[k].Indent()
    ensures !lines[j.steps].shape.Blank()
  {
    hide ScanMatrix, JobKey, ListEnds, MatrixEdit;
  }

  lemma {:induction false} WrittenIsSet(u: seq<Line>, j: Job)
    requires j.start < j.steps < |u| && !u[j.steps].shape.Blank() && ModeWritten(u, j.start, j.steps)
    ensures AxisSet(u, j)
  {
    hide ScanMatrix, Modes, MATRIX_MODES, Strip;
    WrittenModeReads(u, j.start, j.steps);
  }

  lemma {:induction false} GrownSteps(j: Job, n: nat)
    ensures j.Grown(n, 0) == Job(j.start, j.steps + n, j.end)
  {
  }

  lemma {:induction false} AxisIsSet(lines: seq<Line>, j: Job, at: nat, ls: seq<Line>, u: seq<Line>)
    requires IsJob(lines, j) && HeaderDecides(lines, j) && j.start < at <= j.steps && u == InsertLines(lines, at, ls)
    requires AxisLines(lines, j.start, ScanHeader(lines, j.start, j.end), at, ls)
    ensures AxisSet(u, j.Grown(|u| - |lines|, 0))
  {
    hide *;
    HeaderScan(lines, j);
    JobForm(lines, j);
    GrownSteps(j, |ls|);
    AxisIsFound(lines, j.start, j.steps, at, ls);
    LineBehind(lines, at, ls, j.steps);
    InsertForm(lines, at, ls);
    WrittenIsSet(u, j.Grown(|ls|, 0));
  }

  lemma {:induction false} LineBehind(lines: seq<Line>, at: nat, ls: seq<Line>, k: nat)
    requires at <= k < |lines|
    ensures |InsertLines(lines, at, ls)| == |lines| + |ls| && InsertLines(lines, at, ls)[k + |ls|] == lines[k]
  {
  }

  lemma {:induction false} JobForm(lines: seq<Line>, j: Job)
    requires IsJob(lines, j)
    ensures j.start < j.steps < j.end <= |lines| && j.Bounds() == (j.start, j.end) && InText(lines, j.Bounds())
  {
    hide JobKey;
  }

  lemma {:induction false} InsertForm(lines: seq<Line>, at: nat, ls: seq<Line>)
    requires at <= |lines|
    ensures InsertLines(lines, at, ls) == lines[..at] + ls + lines[at..]
  {
  }

  ghost predicate RightKinds(lines: seq<Line>, f: Found) {
    && (f.strategy.Some? ==> f.strategy.value < |lines| && lines[f.strategy.value].shape.kind.StrategyKey?)
    && (f.matrix.Some? ==> f.matrix.value < |lines| && lines[f.matrix.value].shape.kind.MatrixKey?)
  }

  lemma {:induction false} ScanKinds(lines: seq<Line>, i: nat, end: nat, job: nat, f: Found)
    requires i <= end <= |lines| && Before(lines, f, i) && RightKinds(lines, f)
    ensures RightKinds(lines, ScanMatrix(lines, i, end, job, f))
    decreases end - i
  {
    ScanStep(lines, i, end, job, f);
    if i < end {
      var n := Noted(f, lines[i], i);
      assert RightKinds(lines, n);
      hide ScanMatrix, Stops, Noted;
      if !Stops(lines, job, f, i) && n.mode.None? {
        ScanKinds(lines, i + 1, end, job, n);
      }
    }
  }

  lemma {:induction false} AxisIsDeeper(lines: seq<Line>, j: Job)
    requires IsJob(lines, j) && MatrixEdit(lines, j.start, j.end).Add?
    ensures var e := MatrixEdit(lines, j.start, j.end); JobLines(e.lines, lines[j.start].Indent())
  {
    hide Modes, MATRIX_MODES, ScanMatrix, StepsIndex, Read, MatrixEdit, JobKey;
    MatrixForm(lines, j.start, j.end);
    ScanKinds(lines, j.start + 1, j.end, lines[j.start].Indent(), NOTHING);
  }

  /** What a job and its header are after the text became `u`. */
  ghost predicate Given(lines: seq<Line>, j: Job, u: seq<Line>) {
    var n := |u| - |lines|;
    && n >= 0 && AllRead(u) && IsJob(u, j.Grown(n, n)) && AxisSet(u, j.Grown(n, 0))
    && SameFrom(lines, j.steps, u, j.steps + n) && SameUpTo(lines, u, j.start + 1)
  }

  lemma {:induction false} SameUpToLess(a: seq<Line>, b: seq<Line>, x: nat, y: nat)
    requires SameUpTo(a, b, x) && y <= x
    ensures SameUpTo(a, b, y)
  {
  }

  /** A laid-out job is given its axis: only lines of its header are added, it stays a job, and its header holds the
      axis. */
  lemma {:induction false} AxisGiven(lines: seq<Line>, j: Job)
    requires AllRead(lines) && IsJob(lines, j) && HeaderDecides(lines, j)
    requires !MatrixEdit(lines, j.start, j.end).Conflict?
    ensures Given(lines, j, WithAxis(lines, j.Bounds()))
  {
    var e, u := MatrixEdit(lines, j.start, j.end), WithAxis(lines, j.Bounds());
    if e.Add? {
      AddGiven(lines, j, e, u);
    } else {
      AxisWasSet(lines, j);
      assert AllRead(u);
      hide *;
      JobForm(lines, j);
      AxisForm(lines, j.Bounds());
      SameTexts(lines, j.steps, j.start + 1);
      assert j.Grown(0, 0) == j;
      GivenIf(lines, j, u);
    }
  }

  lemma {:induction false} SameTexts(a: seq<Line>, x: nat, y: nat)
    requires x <= |a| && y <= |a|
    ensures SameFrom(a, x, a, x) && SameUpTo(a, a, y)
  {
  }

  lemma {:induction false} GivenIf(lines: seq<Line>, j: Job, u: seq<Line>)
    requires |lines| <= |u| && AllRead(u)
    requires var n := |u| - |lines|;
             && IsJob(u, j.Grown(n, n)) && AxisSet(u, j.Grown(n, 0))
             && SameFrom(lines, j.steps, u, j.steps + n) && SameUpTo(lines, u, j.start + 1)
    ensures Given(lines, j, u)
  {
    hide AllRead, IsJob, AxisSet, SameFrom, SameUpTo;
  }

  lemma {:induction false} AddGiven(lines: seq<Line>, j: Job, e: Edit, u: seq<Line>)
    requires AllRead(lines) && IsJob(lines, j) && HeaderDecides(lines, j)
    requires e == MatrixEdit(lines, j.start, j.end) && e.Add? && u == WithAxis(lines, j.Bounds())
    ensures Given(lines, j, u)
  {
    AxisLinesAreRead(lines, j.Bounds());
    hide *;
    JobForm(lines, j);
    AxisForm(lines, j.Bounds());
    AxisInHeader(lines, j);
    HeaderSpares(lines, j);
    AxisIsDeeper(lines, j);
    MatrixForm(lines, j.start, j.end);
    LinesGiven(lines, j, e.at, e.lines, u);
  }

  lemma {:induction false} LinesGiven(lines: seq<Line>, j: Job, at: nat, ls: seq<Line>, u: seq<Line>)
    requires AllRead(lines) && IsJob(lines, j) && HeaderDecides(lines, j) && AllRead(ls)
    requires j.start < at <= j.steps && u == InsertLines(lines, at, ls)
    requires AxisLines(lines, j.start, ScanHeader(lines, j.start, j.end), at, ls)
    requires JobLines(ls, lines[j.start].Indent())
    requires forall k | 0 <= k < |ls| :: !JobKey(ls[k], lines[j.steps].Indent())
    ensures Given(lines, j, u)
  {
    hide *;
    JobForm(lines, j);
    AddKeeps(lines, j.start, j.steps, at, ls, u);
    HeaderSpliced(lines, j, at, ls, u);
    AxisIsSet(lines, j, at, ls, u);
    GivenIf(lines, j, u);
  }

  lemma {:induction false} AddKeeps(lines: seq<Line>, start: nat, steps: nat, at: nat, ls: seq<Line>, u: seq<Line>)
    requires AllRead(lines) && AllRead(ls) && start < at <= steps <= |lines| && u == InsertLines(lines, at, ls)
    ensures |u| == |lines| + |ls| && AllRead(u) && SameFrom(lines, steps, u, steps + |ls|)
    ensures SameUpTo(lines, u, start + 1)
  {
    hide AllRead, SameFrom;
    SplicedAt(lines, at, at, ls, u);
    SameLater(lines, at, u, at + |ls|, steps - at);
    SpliceIsRead(lines, at, at, ls);
  }

  lemma {:induction false} HeaderSpares(lines: seq<Line>, j: Job)
    requires IsJob(lines, j) && HeaderDecides(lines, j)
    ensures var e := MatrixEdit(lines, j.start, j.end);
            e.Add? ==> forall k | 0 <= k < |e.lines| :: !JobKey(e.lines[k], lines[j.steps].Indent())
  {
    hide ScanMatrix, ListEnds, MatrixEdit, JobKey;
  }

  lemma {:induction false} AxisWasSet(lines: seq<Line>, j: Job)
    requires IsJob(lines, j) && HeaderDecides(lines, j) && MatrixEdit(lines, j.start, j.end).Existing?
    ensures AxisSet(lines, j)
  {
    hide ScanMatrix, JobKey, ListEnds, MATRIX_MODES, Modes;
  }
}
