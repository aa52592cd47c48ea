/** Preparing a laid-out job: the axis and the support steps go where they belong, and the step to rewrite is found
    again. */
module JobPreparation {
  import opened PyStrings
  import opened StepBlocks
  import opened WorkflowLines
  import opened StepRewriter
  import opened RewrittenSteps
  import opened JobMatrix
  import opened TextPatcher
  import opened WorkflowPatcher
  import opened PlainRuns
  import opened JobLayouts
  import opened JobHeaders

  /** The text in which the job has its axis. */
  function Axed(lines: seq<Line>, j: Job): (u: seq<Line>)
    requires InText(lines, j.Bounds())
    ensures |lines| <= |u|
  {
    WithAxis(lines, j.Bounds())
  }

  function AxedJob(lines: seq<Line>, j: Job): Job
    requires InText(lines, j.Bounds())
  {
    var n := |Axed(lines, j)| - |lines|; j.Grown(n, n)
  }

  function AxedStep(lines: seq<Line>, j: Job, s: Step): Step
    requires InText(lines, j.Bounds())
  {
    StepBy(s, |Axed(lines, j)| - |lines|)
  }

  /** The job is laid out: it has one steps key, its header decides about its axis, and an install step to be refreshed
      stands below the steps key. */
  ghost predicate LaidOutJob(lines: seq<Line>, j: Job) {
    && IsJob(lines, j) && HeaderDecides(lines, j)
    && var u, k := Axed(lines, j), AxedJob(lines, j);
       InstallRefresh(u, k.Bounds()).Some? ==> k.steps < StepNamed(u, k.start, k.end, INSTALL_STEP_NAME).value.start
  }

  /** What is lacking would be inserted where the step was. */
  ghost predicate Stale(lines: seq<Line>, j: Job, s: Step)
    requires InText(lines, j.Bounds())
  {
    Misplaces(Axed(lines, j), AxedJob(lines, j).Bounds(), AxedStep(lines, j, s))
  }

  /** Everything in the job that runs pytest is the script of the install step, which is replaced. */
  ghost predicate Swallowed(lines: seq<Line>, j: Job)
    requires InText(lines, j.Bounds())
  {
    var u, k := Axed(lines, j), AxedJob(lines, j);
    var r := InstallRefresh(u, k.Bounds());
    r.Some? && forall x: nat | x < k.end && ExposedFrom(Shapes(u), k.start, x) :: r.value.0 <= x < r.value.1
  }

  /** Line `f` opens step `s`, the first one from `base` on that runs pytest; no block before it reaches it. */
  ghost predicate Heads(lines: seq<Line>, base: nat, s: Step) {
    && StepAt(lines, s.start) == Some(s) && !Cold(Shapes(s.lines))
    && Aligned(Shapes(lines), s.start) && Clean(Shapes(lines), base, s.start)
  }

  // ---------------------------------------------------------------- searching

  lemma {:induction false} BlockIsInside(t: Text, base: nat, b: StepBlock, x: StepBlock)
    requires IsBlock(t, b) && base <= b.start && FirstPytestBlock(t, base, x) && exists r: nat :: Hot(b.lines, r)
    ensures x.start <= b.start
  {
    var r: nat :| Hot(b.lines, r);
    var k := b.start + r;
    HotInBlock(t, b, k);
    BlockCovers(t, b, k);
    assert ExposedFrom(t, base, k);
    if b.start < x.start {
      CoverPrefix(t, b.start, k, x.start);
    }
  }

  lemma {:induction false} HeadBlock(lines: seq<Line>, base: nat, s: Step)
    requires Heads(lines, base, s)
    ensures IsBlock(Shapes(lines), s.Block()) && s.Block().start == s.start && exists r: nat :: Hot(s.Block().lines, r)
    ensures Aligned(Shapes(lines), s.start) && Clean(Shapes(lines), base, s.start)
  {
    hide StepEnd, Hot, Aligned, Clean;
  }

  lemma {:induction false} FoundBlock(lines: seq<Line>, base: nat)
    requires exists k: nat :: ExposedFrom(Shapes(lines), base, k)
    ensures FirstStep(lines, base).Some?
    ensures var s := FirstStep(lines, base).value;
            FirstPytestBlock(Shapes(lines), base, s.Block()) && s.Block().start == s.start
                && StepAt(lines, s.start) == Some(s)
  {
    hide FirstStep, StepAt, FirstPytestBlock, ExposedFrom;
    FirstStepIs(lines, base);
  }

  /** The step that heads the text from `base` on is the one that a search from `base` finds. */
  lemma {:induction false} HeadIsFirst(lines: seq<Line>, base: nat, s: Step)
    requires Heads(lines, base, s) && base <= s.start
    ensures FirstStep(lines, base) == Some(s)
  {
    hide *;
    HeadBlock(lines, base, s);
    HeadsForm(lines, base, s);
    HeadIsExposed(Shapes(lines), base, s.Block());
    FoundBlock(lines, base);
    var r := FirstStep(lines, base).value;
    FirstBlockStaysClean(Shapes(lines), base, base, s.start, r.Block());
    BlockIsInside(Shapes(lines), base, s.Block(), r.Block());
  }

  lemma {:induction false} HeadIsExposed(t: Text, base: nat, b: StepBlock)
    requires IsBlock(t, b) && base <= b.start && exists r: nat :: Hot(b.lines, r)
    ensures exists k: nat :: k < b.end && ExposedFrom(t, base, k)
  {
    var r: nat :| Hot(b.lines, r);
    var k := b.start + r;
    HotInBlock(t, b, k);
    BlockCovers(t, b, k);
    assert ExposedFrom(t, base, k);
  }

  /** Something exposed before `end` is found, and what is found heads the text. */
  lemma {:induction false} SearchHeads(lines: seq<Line>, base: nat, f: nat, x: nat) returns (s: Step)
    requires Aligned(Shapes(lines), f) && Clean(Shapes(lines), base, f) && base <= f
    requires ExposedFrom(Shapes(lines), base, x)
    ensures FirstStep(lines, base) == Some(s) && Heads(lines, base, s) && f <= s.start <= x
  {
    hide FirstStep, StepEnd;
    FirstStepIs(lines, base);
    s := FirstStep(lines, base).value;
    FirstBlockStaysClean(Shapes(lines), base, base, f, s.Block());
    FirstBlockIsFrontier(Shapes(lines), base, f, s.Block());
  }

  // ---------------------------------------------------------------- the axis

  /** With its axis, the job is headed by the same step. */
  lemma {:induction false} AxisHeads(lines: seq<Line>, j: Job, s: Step)
    requires AllRead(lines) && LaidOutJob(lines, j) && !MatrixEdit(lines, j.start, j.end).Conflict?
    requires j.Holds(s.start) && Heads(lines, j.start, s)
    ensures var u := Axed(lines, j); Given(lines, j, u) && Heads(u, j.start, AxedStep(lines, j, s))
    ensures HotsFrom(Shapes(Axed(lines, j)), AxedStep(lines, j, s).start) <= HotsFrom(Shapes(lines), s.start)
  {
    hide *;
    LaidOutForm(lines, j);
    HeadsForm(lines, j.start, s);
    AxisGiven(lines, j);
    AxedForm(lines, j, s);
    AxisFrontier(lines, j, s.start);
    var u, n := Axed(lines, j), |Axed(lines, j)| - |lines|;
    GivenForm(lines, j, u);
    StepShifts(lines, j.steps, u, j.steps + n, s.start);
    HeadsIf(u, j.start, AxedStep(lines, j, s));
  }

  lemma {:induction false} LaidOutForm(lines: seq<Line>, j: Job)
    requires LaidOutJob(lines, j)
    ensures IsJob(lines, j) && HeaderDecides(lines, j) && j.start < j.steps < j.end <= |lines|
    ensures j.Bounds() == (j.start, j.end) && InText(lines, j.Bounds())
    ensures forall k: nat | j.Holds(k) :: j.steps < k < j.end
  {
    hide HeaderDecides, InstallRefresh, StepNamed, JobKey;
  }

  lemma {:induction false} AxedForm(lines: seq<Line>, j: Job, s: Step)
    requires InText(lines, j.Bounds())
    ensures var u := WithAxis(lines, j.Bounds());
            var n := |u| - |lines|;
            n >= 0 && Axed(lines, j) == u && AxedJob(lines, j) == Job(j.start, j.steps + n, j.end + n) == j.Grown(n, n)
            && AxedStep(lines, j, s) == StepBy(s, n) == Step(s.start + n, s.end + n, s.indent, s.lines)
  {
    hide WithAxis;
  }

  lemma {:induction false} GivenForm(lines: seq<Line>, j: Job, u: seq<Line>)
    requires Given(lines, j, u)
    ensures var n := |u| - |lines|;
            n >= 0 && AllRead(u) && IsJob(u, j.Grown(n, n)) && AxisSet(u, j.Grown(n, 0))
            && SameFrom(lines, j.steps, u, j.steps + n) && SameUpTo(lines, u, j.start + 1)
  {
    hide AllRead, IsJob, AxisSet, SameFrom, SameUpTo;
  }

  lemma {:induction false} HeadsForm(lines: seq<Line>, base: nat, s: Step)
    requires Heads(lines, base, s)
    ensures StepAt(lines, s.start) == Some(s) && !Cold(Shapes(s.lines)) && s.start < s.end <= |lines|
    ensures Aligned(Shapes(lines), s.start) && Clean(Shapes(lines), base, s.start)
  {
    hide Cold, Aligned, Clean;
  }

  lemma {:induction false} HeadsIf(lines: seq<Line>, base: nat, s: Step)
    requires StepAt(lines, s.start) == Some(s) && !Cold(Shapes(s.lines))
    requires Aligned(Shapes(lines), s.start) && Clean(Shapes(lines), base, s.start)
    ensures Heads(lines, base, s)
  {
    hide StepAt, Cold, Aligned, Clean;
  }

  lemma {:induction false} AxisFrontier(lines: seq<Line>, j: Job, f: nat)
    requires IsJob(lines, j) && HeaderDecides(lines, j) && j.steps < f <= |lines|
    requires Aligned(Shapes(lines), f) && Clean(Shapes(lines), j.start, f)
    ensures var u := WithAxis(lines, j.Bounds());
            var g := f + (|u| - |lines|);
            g <= |u| && Aligned(Shapes(u), g) && Clean(Shapes(u), j.start, g)
                && HotsFrom(Shapes(u), g) <= HotsFrom(Shapes(lines), f)
  {
    hide MatrixEdit, HeaderDecides, IsJob, Aligned, Clean, HotsFrom, WithAxis, InsertLines, WellRead;
    JobForm(lines, j);
    AxisForm(lines, j.Bounds());
    var e := MatrixEdit(lines, j.start, j.end);
    if e.Add? {
      AxisInHeader(lines, j);
      InsertedShapes(lines, e.at, e.lines);
      var u := InsertLines(lines, e.at, e.lines);
      InsertKeepsFrontier(Shapes(lines), j.start, e.at, |e.lines|, Shapes(u), f);
      InsertHots(Shapes(lines), e.at, |e.lines|, Shapes(u), f);
    }
  }

  /** The axis phase reaches the same step, in the same job. */
  lemma {:induction false} AxisReaches(lines: seq<Line>, j: Job, s: Step)
    requires AllRead(lines) && LaidOutJob(lines, j) && !MatrixEdit(lines, j.start, j.end).Conflict?
    requires j.Holds(s.start) && Heads(lines, j.start, s)
    ensures AxisPhase(lines, j.Bounds()) == Reached(Axed(lines, j), AxedStep(lines, j, s), AxedJob(lines, j).Bounds())
  {
    hide *;
    LaidOutForm(lines, j);
    AxisHeads(lines, j, s);
    AxedForm(lines, j, s);
    var u := Axed(lines, j);
    GivenForm(lines, j, u);
    HeadIsFirst(u, j.start, AxedStep(lines, j, s));
    JobLocated(u, AxedJob(lines, j), s.start + (|u| - |lines|));
    AxisPhaseForm(lines, j.Bounds());
    LocatedForm(u, FirstStep(u, j.start));
  }

  lemma {:induction false} AxisPhaseForm(lines: seq<Line>, job: Bounds)
    requires InText(lines, job) && !MatrixEdit(lines, job.0, job.1).Conflict?
    ensures var u := WithAxis(lines, job); AxisPhase(lines, job) == Located(u, FirstStep(u, job.0))
  {
    hide MatrixEdit, WithAxis, FirstStep, Located;
  }

  lemma {:induction false} LocatedForm(lines: seq<Line>, step: Option<Step>)
    requires step.Some? && StepAt(lines, step.value.start) == step && JobOf(lines, step.value.start).Some?
    ensures Located(lines, step) == Reached(lines, step.value, JobOf(lines, step.value.start).value)
  {
    hide StepAt, JobOf;
  }

  // ---------------------------------------------------------------- the support steps

  /** Where the frontier `f` of a job is: the text behind it, and what is in the job. */
  ghost predicate Stands(u: seq<Line>, k: Job, f: nat) {
    && AllRead(u) && IsJob(u, k) && AxisSet(u, k) && k.steps < f <= |u|
    && Aligned(Shapes(u), f) && Clean(Shapes(u), k.start, f)
  }

  lemma {:induction false} StandsForm(u: seq<Line>, k: Job, f: nat)
    requires Stands(u, k, f)
    ensures AllRead(u) && IsJob(u, k) && AxisSet(u, k) && k.start < k.steps < f <= |u| && k.steps < k.end <= |u|
    ensures Aligned(Shapes(u), f) && Clean(Shapes(u), k.start, f)
  {
    hide AllRead, AxisSet, Aligned, Clean, JobKey, OpensSteps;
  }

  lemma {:induction false} StandsIf(u: seq<Line>, k: Job, f: nat)
    requires AllRead(u) && IsJob(u, k) && AxisSet(u, k) && k.steps < f <= |u|
    requires Aligned(Shapes(u), f) && Clean(Shapes(u), k.start, f)
    ensures Stands(u, k, f)
  {
    hide AllRead, IsJob, AxisSet, Aligned, Clean;
  }

  /** The lines up to the steps key stay, and so does the axis. */
  lemma {:induction false} AxisStaysBelow(a: seq<Line>, j: Job, x: nat, y: nat, ls: seq<Line>, u: seq<Line>)
    requires IsJob(a, j) && AxisSet(a, j) && j.steps < x <= y <= j.end && JobLines(ls, a[j.start].Indent())
    requires u == a[..x] + ls + a[y..]
    ensures var k := j.Grown(0, |ls| - (y - x));
            IsJob(u, k) && AxisSet(u, k) && SameFrom(a, j.end, u, k.end) && SameUpTo(a, u, x)
  {
    hide IsJob, AxisSet, SameFrom, JobLines;
    JobForm(a, j);
    JobSpliced(a, j, x, y, ls, u);
    SplicedAt(a, x, y, ls, u);
    SameUpToLess(a, u, x, j.steps + 1);
    AxisStays(a, u, j, j.Grown(0, |ls| - (y - x)));
    SameLater(a, y, u, x + |ls|, j.end - y);
  }

  /** The install step to be refreshed, if there is one, stands below the steps key. */
  ghost predicate RefreshBelow(u: seq<Line>, k: Job) {
    InstallRefresh(u, k.Bounds()).Some? ==> k.steps < StepNamed(u, k.start, k.end, INSTALL_STEP_NAME).value.start
  }

  /** The install step of the job, and what of it is refreshed. */
  lemma {:induction false} InstallParts(u: seq<Line>, k: Job) returns (s: Step)
    requires AllRead(u) && IsJob(u, k) && RefreshBelow(u, k) && InstallRefresh(u, k.Bounds()).Some?
    ensures StepAt(u, s.start) == Some(s) && k.Holds(s.start)
    ensures var r := InstallRefresh(u, k.Bounds()).value;
            && s.start < r.0 < r.1 <= s.end <= k.end && RunExtent(Shapes(u), r.0, r.1)
               && Covers(Shapes(u), s.start, r.0)
            && u[k.start].Indent() < u[r.0].Indent()
    ensures s == StepNamed(u, k.start, k.end, INSTALL_STEP_NAME).value && Outdated(s.lines).Some?
  {
    hide Outdated, NamesOfSteps, StepNamed, StepName, NormalizedName, Shapes, Covers, RunExtent, JobKey, OpensSteps;
    hide AllRead;
    hide INSTALL_STEP_NAME, StepEnd;
    s := StepNamed(u, k.start, k.end, INSTALL_STEP_NAME).value;
    OutdatedExtent(u, s);
    StepInJob(u, k, s);
    var q := InstallRefresh(u, k.Bounds()).value.0;
    BlockCovers(Shapes(u), s.Block(), q);
    RunKeyThere(u, q, InstallRefresh(u, k.Bounds()).value.1);
  }

  lemma {:induction false} RunKeyThere(u: seq<Line>, q: nat, p: nat)
    requires RunExtent(Shapes(u), q, p)
    ensures q < p <= |u| && u[q].shape.Run() && !u[q].shape.Blank()
  {
  }

  lemma {:induction false} RefreshForm(u: seq<Line>, q: nat, p: nat)
    requires q < p <= |u|
    ensures AfterRefresh(u, Some((q, p))) == u[..q] + InstallRun(u[q].Indent()) + u[p..]
    ensures |AfterRefresh(u, Some((q, p)))| == |u| - (p - q) + 5
  {
    hide InstallRun;
  }

  lemma {:induction false} InstallRunFits(indent: nat, key: nat)
    requires key < indent
    ensures JobLines(InstallRun(indent), key)
  {
    hide InstallRun, RUN_HEADER;
    InstallRunIsRead(indent);
  }

  /** An edit below the steps key led from a standing frontier to another one: the job keeps its header and what
      follows it, and there is not more to do. */
  ghost predicate Follows(u: seq<Line>, k: Job, f: nat, v: seq<Line>, m: Job, g: nat) {
    && Stands(u, k, f) && Stands(v, m, g) && m.start == k.start && m.steps == k.steps
    && SameFrom(u, k.end, v, m.end) && SameUpTo(u, v, k.steps + 1) && (f < k.end ==> g < m.end)
    && HotsFrom(Shapes(v), g) <= HotsFrom(Shapes(u), f)
  }

  lemma {:induction false} FollowsItself(u: seq<Line>, k: Job, f: nat)
    requires Stands(u, k, f)
    ensures Follows(u, k, f, u, k, f)
  {
    StandsForm(u, k, f);
    SameTexts(u, k.end, k.steps + 1);
    hide Stands, SameFrom, SameUpTo, HotsFrom;
  }

  lemma {:induction false} FollowsIf(u: seq<Line>, k: Job, f: nat, v: seq<Line>, m: Job, g: nat)
    requires Stands(u, k, f) && m.start == k.start && m.steps == k.steps && k.steps < g <= |v| && f <= |u|
    requires AllRead(v) && IsJob(v, m) && AxisSet(v, m) && Aligned(Shapes(v), g) && Clean(Shapes(v), k.start, g)
    requires SameFrom(u, k.end, v, m.end) && SameUpTo(u, v, k.steps + 1) && (f < k.end ==> g < m.end)
    requires HotsFrom(Shapes(v), g) <= HotsFrom(Shapes(u), f)
    ensures Follows(u, k, f, v, m, g)
  {
    StandsIf(v, m, g);
    hide Stands, AllRead, IsJob, AxisSet, Aligned, Clean, SameFrom, SameUpTo, HotsFrom;
  }

  lemma {:induction false} RefreshFollows(u: seq<Line>, k: Job, f: nat, q: nat, p: nat, v: seq<Line>)
    requires Stands(u, k, f) && k.steps < q < p <= k.end && (f <= q || p <= f) && u[k.start].Indent() < u[q].Indent()
    requires v == u[..q] + InstallRun(u[q].Indent()) + u[p..] && AllRead(v) && Refreshed(Shapes(u), q, p, 4, Shapes(v))
    ensures 0 <= Moved(f, q, p, 4) && k.steps < k.end + |v| - |u|
    ensures Follows(u, k, f, v, Job(k.start, k.steps, k.end + |v| - |u|), Moved(f, q, p, 4))
  {
    hide Stands, AllRead, IsJob, AxisSet, Aligned, Clean, HotsFrom, SameFrom, SameUpTo, Refreshed, Shapes, InstallRun;
    hide JobLines, WellRead;
    StandsForm(u, k, f);
    var m := Job(k.start, k.steps, k.end + |v| - |u|);
    assert k.Grown(0, 5 - (p - q)) == m;
    InstallRunFits(u[q].Indent(), u[k.start].Indent());
    AxisStaysBelow(u, k, q, p, InstallRun(u[q].Indent()), v);
    SameUpToLess(u, v, q, k.steps + 1);
    RefreshKeepsFrontier(Shapes(u), k.start, q, p, 4, Shapes(v), f);
    RefreshHots(Shapes(u), q, p, 4, Shapes(v), f);
    FollowsIf(u, k, f, v, m, Moved(f, q, p, 4));
  }

  function RefreshedJob(u: seq<Line>, k: Job): Job {
    var n := |AfterRefresh(u, InstallRefresh(u, k.Bounds()))| - |u|;
    if k.end + n < 0 then k else Job(k.start, k.steps, k.end + n)
  }

  lemma {:induction false} FrontierForm(u: seq<Line>, k: Job, f: nat)
    ensures var r, b := InstallRefresh(u, k.Bounds()), k.Bounds();
            && b == (k.start, k.end)
            && Frontier(u, b, f) == (if r.Some? then Moved(f, r.value.0, r.value.1, 4) else f)
            && (r.None? ==> AfterRefresh(u, r) == u && RefreshedJob(u, k) == k)
            && (r.Some? && r.value.0 < r.value.1 <= |u| && r.value.1 <= k.end ==>
                  && |AfterRefresh(u, r)| == |u| - (r.value.1 - r.value.0) + 5
                  && RefreshedJob(u, k) == Job(k.start, k.steps, k.end + |AfterRefresh(u, r)| - |u|)
                  && AfterRefresh(u, r) == u[..r.value.0] + InstallRun(u[r.value.0].Indent()) + u[r.value.1..])
  {
    hide InstallRefresh, AfterRefresh, InstallRun;
    var r := InstallRefresh(u, k.Bounds());
    if r.Some? && r.value.0 < r.value.1 <= |u| {
      RefreshForm(u, r.value.0, r.value.1);
    }
  }

  lemma {:induction false} ShapeAt(u: seq<Line>, f: nat)
    requires f < |u|
    ensures f < |Shapes(u)| && Shapes(u)[f] == u[f].shape && u[f].Indent() == u[f].shape.indent
  {
  }

  /** What a refresh of the install step leaves: the job with its axis, and the frontier where its line is. */
  lemma {:induction false} RefreshStands(u: seq<Line>, k: Job, f: nat)
    requires Stands(u, k, f) && RefreshBelow(u, k)
    ensures var v, g := AfterRefresh(u, InstallRefresh(u, k.Bounds())), Frontier(u, k.Bounds(), f);
            && 0 <= g && Follows(u, k, f, v, RefreshedJob(u, k), g) && RefreshedJob(u, k).end == k.end + |v| - |u|
            && (g == f && f < |u| ==> f < |v| && v[f].shape.kind == u[f].shape.kind && v[f].Indent() == u[f].Indent())
  {
    hide *;
    StandsForm(u, k, f);
    FrontierForm(u, k, f);
    var r := InstallRefresh(u, k.Bounds());
    if r.None? {
      FollowsItself(u, k, f);
    } else {
      var q, p := r.value.0, r.value.1;
      var s := InstallParts(u, k);
      InJobForm(k, s.start);
      RefreshAsideFrontier(u, k.Bounds(), f);
      RefreshedText(u, r.value);
      var v := AfterRefresh(u, r);
      RefreshFollows(u, k, f, q, p, v);
      RefreshKeepsLine(Shapes(u), q, p, Shapes(v), f, k.start);
      if Moved(f, q, p, 4) == f && f < |u| {
        ShapeAt(u, f);
        ShapeAt(v, f);
      }
    }
  }

  lemma {:induction false} InJobForm(k: Job, x: nat)
    ensures k.Holds(x) <==> k.steps < x < k.end
  {
  }

  /** A pytest run outside the refreshed script stays exposed. */
  lemma {:induction false} RefreshSpares(u: seq<Line>, k: Job, x: nat)
    requires AllRead(u) && IsJob(u, k) && RefreshBelow(u, k) && ExposedFrom(Shapes(u), k.start, x)
    requires var r := InstallRefresh(u, k.Bounds()); r.Some? ==> x < r.value.0 || r.value.1 <= x
    ensures var v, y := AfterRefresh(u, InstallRefresh(u, k.Bounds())), Frontier(u, k.Bounds(), x);
            0 <= y && ExposedFrom(Shapes(v), k.start, y) && (x < k.end ==> y < k.end + |v| - |u|)
  {
    hide *;
    JobForm(u, k);
    FrontierForm(u, k, x);
    var r := InstallRefresh(u, k.Bounds());
    if r.Some? {
      var s := InstallParts(u, k);
      InJobForm(k, s.start);
      RefreshedText(u, r.value);
      RefreshSparesExposed(Shapes(u), k.start, r.value.0, r.value.1, 4, Shapes(AfterRefresh(u, r)), s.start, x);
      MovedForm(x, r.value.0, r.value.1);
    }
  }

  lemma {:induction false} MovedForm(f: nat, q: nat, p: nat)
    ensures Moved(f, q, p, 4) == if f <= q then f else f - (p - q) + 5
  {
  }

  lemma {:induction false} ScriptFits(b: seq<Line>, indent: nat, key: nat)
    requires ScriptStep(b, indent) && key < indent
    ensures JobLines(b, key) && AllRead(b)
  {
    hide AllRead;
    forall k | 0 <= k < |b|
      ensures !OpensSteps(b[k]) && (b[k].shape.Blank() || key < b[k].Indent())
    {
      assert k == 0 || k == 1 || 2 <= k;
    }
  }

  lemma {:induction false} JobLinesTogether(a: seq<Line>, b: seq<Line>, key: nat)
    requires JobLines(a, key) && JobLines(b, key)
    ensures JobLines(a + b, key)
  {
    hide OpensSteps;
  }

  lemma {:induction false} MissingFits(names: set<string>, indent: nat, key: nat)
    requires key < indent
    ensures JobLines(MissingSteps(names, indent), key)
  {
    hide InstallBlock, SelectBlock, INSTALL_STEP_NAME, SELECT_STEP_NAME, ScriptStep;
    InstallBlockIsScript(indent);
    SelectBlockIsScript(indent);
    ScriptFits(InstallBlock(indent), indent, key);
    ScriptFits(SelectBlock(indent), indent, key);
    var a := if INSTALL_STEP_NAME in names then [] else InstallBlock(indent);
    var b := if SELECT_STEP_NAME in names then [] else SelectBlock(indent);
    JobLinesTogether(a, b, key);
  }

  lemma {:induction false} GrownForm(k: Job, n: nat)
    ensures k.Grown(0, n) == Job(k.start, k.steps, k.end + n)
  {
  }

  lemma {:induction false} DashEnds(l: Shape, indent: nat)
    requires l.Dash() && l.indent == indent
    ensures l.Ends(indent)
  {
  }

  lemma {:induction false} InsertFollows(v: seq<Line>, m: Job, f: nat, ls: seq<Line>, indent: nat)
    requires Stands(v, m, f) && f < m.end && f < |v| && v[f].shape.Dash() && v[f].Indent() == indent
    requires StepShaped(Shapes(ls), indent) && Cold(Shapes(ls)) && AllRead(ls) && JobLines(ls, v[m.start].Indent())
    ensures Follows(v, m, f, InsertLines(v, f, ls), m.Grown(0, |ls|), f + |ls|)
  {
    hide *;
    StandsForm(v, m, f);
    GrownForm(m, |ls|);
    InsertForm(v, f, ls);
    ShapeAt(v, f);
    var n, w := |ls|, InsertLines(v, f, ls);
    AxisStaysBelow(v, m, f, f, ls, w);
    DashEnds(Shapes(v)[f], indent);
    SameUpToLess(v, w, f, m.steps + 1);
    SpliceIsRead(v, f, f, ls);
    ShapesOfSplice(v, f, f, ls);
    InsertStands(Shapes(v), m.start, f, Shapes(ls), indent);
    FollowsIf(v, m, f, w, m.Grown(0, n), f + n);
  }

  /** What an insertion of support steps at the frontier, before a step of the same depth, leaves. */
  lemma {:induction false} SupportStands(v: seq<Line>, m: Job, f: nat, names: set<string>, indent: nat)
    requires Stands(v, m, f) && f < m.end && f < |v| && v[f].shape.Dash() && v[f].Indent() == indent
    requires MissingSteps(names, indent) != []
    ensures var added := MissingSteps(names, indent);
            Follows(v, m, f, InsertLines(v, f, added), m.Grown(0, |added|), f + |added|)
  {
    hide *;
    StandsForm(v, m, f);
    DashInJob(v, m, f);
    var added := MissingSteps(names, indent);
    MissingStepsAreSteps(names, indent);
    MissingFits(names, indent, v[m.start].Indent());
    InsertFollows(v, m, f, added, indent);
  }

  lemma {:induction false} DashInJob(v: seq<Line>, m: Job, f: nat)
    requires IsJob(v, m) && m.steps < f < m.end && v[f].shape.Dash()
    ensures v[m.start].Indent() < v[f].Indent()
  {
    hide JobKey;
  }

  lemma {:induction false} InsertStands(t: Text, base: nat, f: nat, ls: Text, indent: nat)
    requires Aligned(t, f) && Clean(t, base, f) && base <= f < |t| && t[f].Dash() && t[f].indent == indent
    requires StepShaped(ls, indent) && Cold(ls)
    ensures var u := Substituted(t, f, f, ls);
            && f + |ls| <= |u| && Aligned(u, f + |ls|) && Clean(u, base, f + |ls|)
               && HotsFrom(u, f + |ls|) == HotsFrom(t, f)
  {
    SplicedLines(t, f, f, ls);
    ReplaceKeepsAlignment(t, f, f, ls, indent);
    ReplaceStaysClean(t, base, f, f, ls, indent);
    SuffixHots(Substituted(t, f, f, ls), f + |ls|, t, f);
  }

  /** What is exposed behind a frontier stays exposed when lines are put before the frontier. */
  lemma {:induction false} SuffixExposed(t: Text, f: nat, u: Text, g: nat, base: nat, x: nat)
    requires f <= |t| && g <= |u| && t[f..] == u[g..] && Aligned(t, f) && base <= g && f <= x && ExposedFrom(t, base, x)
    ensures ExposedFrom(u, base, x - f + g)
  {
    var d: nat :| base <= d && Covers(t, d, x);
    if d < f {
      CoverPrefix(t, d, x, f);
    }
    assert forall i | f <= i < |t| :: t[i] == t[f..][i - f] == u[i - f + g];
    assert forall i | g <= i < |u| :: u[i] == u[g..][i - g] == t[i - g + f];
    SuffixHot(t, f, u, g, x - f);
    assert Covers(u, d - f + g, x - f + g);
  }

  lemma {:induction false} FollowsForm(u: seq<Line>, k: Job, f: nat, v: seq<Line>, m: Job, g: nat)
    requires Follows(u, k, f, v, m, g)
    ensures Stands(u, k, f) && Stands(v, m, g) && m.start == k.start && m.steps == k.steps && f <= |u| && g <= |v|
    ensures SameFrom(u, k.end, v, m.end) && SameUpTo(u, v, k.steps + 1) && (f < k.end ==> g < m.end)
    ensures HotsFrom(Shapes(v), g) <= HotsFrom(Shapes(u), f)
  {
    hide Stands, SameFrom, SameUpTo, HotsFrom, AllRead, IsJob, AxisSet, Aligned, Clean;
    StandsForm(u, k, f);
    StandsForm(v, m, g);
  }

  lemma {:induction false} SameThrough(a: seq<Line>, i: nat, b: seq<Line>, k: nat, c: seq<Line>, m: nat)
    requires SameFrom(a, i, b, k) && SameFrom(b, k, c, m)
    ensures SameFrom(a, i, c, m)
  {
  }

  lemma {:induction false} SameUpToThrough(a: seq<Line>, b: seq<Line>, c: seq<Line>, x: nat)
    requires SameUpTo(a, b, x) && SameUpTo(b, c, x)
    ensures SameUpTo(a, c, x)
  {
  }

  lemma {:induction false} FollowsTwice(u: seq<Line>, k: Job, f: nat, v: seq<Line>, m: Job, g: nat, w: seq<Line>,
                                        n: Job, h: nat)
    requires Follows(u, k, f, v, m, g) && Follows(v, m, g, w, n, h)
    ensures Follows(u, k, f, w, n, h)
  {
    SameThrough(u, k.end, v, m.end, w, n.end);
    SameUpToThrough(u, v, w, k.steps + 1);
    hide Stands, SameFrom, SameUpTo, HotsFrom;
  }

  /** The frontier may be moved to a step that heads the text. */
  lemma {:induction false} FollowsToHead(u: seq<Line>, k: Job, f: nat, v: seq<Line>, m: Job, g: nat, s: Step)
    requires Follows(u, k, f, v, m, g) && Heads(v, m.start, s) && g <= s.start < m.end
    ensures Follows(u, k, f, v, m, s.start)
  {
    hide *;
    FollowsForm(u, k, f, v, m, g);
    HeadsForm(v, m.start, s);
    StandsForm(u, k, f);
    StandsForm(v, m, g);
    HotsShrink(Shapes(v), g, s.start);
    FollowsIf(u, k, f, v, m, s.start);
  }

  lemma {:induction false} WithSupportForm(u: seq<Line>, job: Bounds, s: Step)
    ensures var v, added, w := AfterRefresh(u, InstallRefresh(u, job)), Lacking(u, job, s.indent),
            WithSupport(u, job, s);
            && (added == [] ==> w == v)
            && (s.start <= |v| ==> w == InsertLines(v, s.start, added))
            && NewStart(u, job, s) == (if InstallRefresh(u, job).Some? then job.0 else s.start + |added|)
            && added == MissingSteps(NamesOfSteps(u, job.0, job.1), s.indent)
  {
    hide AfterRefresh, InstallRefresh, MissingSteps, NamesOfSteps;
    var v := AfterRefresh(u, InstallRefresh(u, job));
    NothingInserted(v, Nearer(s.start, |v|));
  }

  /** Where the support steps leave the job and its frontier. */
  lemma {:induction false} SupportFollows(u: seq<Line>, k: Job, s: Step) returns (m: Job, g: nat)
    requires Stands(u, k, s.start) && StepAt(u, s.start) == Some(s) && s.start < k.end && RefreshBelow(u, k)
    requires !Misplaces(u, k.Bounds(), s)
    ensures var v, w, f := AfterRefresh(u, InstallRefresh(u, k.Bounds())), WithSupport(u, k.Bounds(), s),
            Frontier(u, k.Bounds(), s.start);
            && Follows(u, k, s.start, w, m, g)
            && 0 <= f && Follows(u, k, s.start, v, RefreshedJob(u, k), f) && SameFrom(v, f, w, g)
            && m.end - RefreshedJob(u, k).end == g - f
            && (InstallRefresh(u, k.Bounds()).None? ==> g == NewStart(u, k.Bounds(), s))
  {
    hide *;
    var b, f := k.Bounds(), s.start;
    FrontierForm(u, k, f);
    StepForm(u, s);
    RefreshStands(u, k, f);
    WithSupportForm(u, b, s);
    MisplacedMoves(u, b, s);
    var v, m2, added := AfterRefresh(u, InstallRefresh(u, b)), RefreshedJob(u, k), Lacking(u, b, s.indent);
    g, m := Frontier(u, b, f), m2;
    FollowsForm(u, k, f, v, m2, g);
    SameItself(v, g);
    if added != [] {
      StandsForm(v, m2, f);
      DashKept(u, v, f);
      SupportStands(v, m2, f, NamesOfSteps(u, k.start, k.end), s.indent);
      InsertSame(v, f, added);
      GrownForm(m2, |added|);
      g, m := f + |added|, m2.Grown(0, |added|);
      FollowsTwice(u, k, f, v, m2, f, WithSupport(u, b, s), m, g);
    }
  }

  lemma {:induction false} SameItself(v: seq<Line>, g: nat)
    requires g <= |v|
    ensures SameFrom(v, g, v, g)
  {
  }

  lemma {:induction false} InsertSame(v: seq<Line>, f: nat, ls: seq<Line>)
    requires f <= |v|
    ensures SameFrom(v, f, InsertLines(v, f, ls), f + |ls|)
  {
  }

  lemma {:induction false} StepForm(u: seq<Line>, s: Step)
    requires StepAt(u, s.start) == Some(s)
    ensures s.start < s.end <= |u| && u[s.start].shape.Dash() && u[s.start].Indent() == s.indent
  {
    hide StepEnd;
  }

  lemma {:induction false} DashKept(u: seq<Line>, v: seq<Line>, f: nat)
    requires f < |u| && f < |v| && u[f].shape.Dash() && v[f].shape.kind == u[f].shape.kind
    ensures v[f].shape.Dash()
  {
  }

  /** Something of the job that runs pytest is not in the script to be refreshed. */
  ghost predicate Spared(u: seq<Line>, k: Job) {
    var r := InstallRefresh(u, k.Bounds());
    exists x: nat :: x < k.end && ExposedFrom(Shapes(u), k.start, x) && (r.Some? ==> x < r.value.0 || r.value.1 <= x)
  }

  /** What is exposed behind the frontier is found where the frontier was moved to. */
  lemma {:induction false} ExposedIsFound(v: seq<Line>, n: Job, f: nat, w: seq<Line>, m: Job, g: nat, y: nat)
    returns (t: Step)
    requires Stands(v, n, f) && Stands(w, m, g) && SameFrom(v, f, w, g) && m.start == n.start && m.end - n.end == g - f
    requires ExposedFrom(Shapes(v), n.start, y) && y < n.end
    ensures FirstStep(w, n.start) == Some(t) && Heads(w, n.start, t) && g <= t.start < m.end
  {
    hide *;
    StandsForm(v, n, f);
    StandsForm(w, m, g);
    CleanForm(Shapes(v), n.start, f, y);
    SameShapes(v, f, w, g);
    SuffixExposed(Shapes(v), f, Shapes(w), g, n.start, y);
    t := SearchHeads(w, n.start, g, y - f + g);
  }

  lemma {:induction false} SparedForm(u: seq<Line>, k: Job) returns (x: nat)
    requires Spared(u, k)
    ensures x < k.end && ExposedFrom(Shapes(u), k.start, x)
    ensures var r := InstallRefresh(u, k.Bounds()); r.Some? ==> x < r.value.0 || r.value.1 <= x
  {
    hide InstallRefresh, ExposedFrom;
    x :| x < k.end && ExposedFrom(Shapes(u), k.start, x)
         && var r := InstallRefresh(u, k.Bounds()); (r.Some? ==> x < r.value.0 || r.value.1 <= x);
  }

  lemma {:induction false} CleanForm(t: Text, base: nat, f: nat, x: nat)
    requires Clean(t, base, f) && ExposedFrom(t, base, x)
    ensures f <= x
  {
  }

  lemma {:induction false} FoundForm(w: seq<Line>, from: nat, job: nat)
    ensures StepAt(w, from).None? ==> FoundAgain(w, from, job) == FirstStep(w, job)
    ensures StepAt(w, from).Some? && !Cold(Shapes(StepAt(w, from).value.lines)) ==>
            FoundAgain(w, from, job) == StepAt(w, from)
  {
    hide StepAt, Cold, FirstStep;
  }

  lemma {:induction false} KeyIsNoStep(u: seq<Line>, k: Job, w: seq<Line>)
    requires AllRead(u) && IsJob(u, k) && SameUpTo(u, w, k.steps + 1)
    ensures StepAt(w, k.start).None?
  {
    KeyIsNotBlank(u, k);
    hide AllRead, JobKey, OpensSteps, StepEnd;
  }

  /** A job whose support steps are ensured in place: the phase reaches a step of the job that runs pytest. */
  lemma {:induction false} SupportReaches(u: seq<Line>, k: Job, s: Step) returns (m: Job, t: Step)
    requires Stands(u, k, s.start) && Heads(u, k.start, s) && s.start < k.end && RefreshBelow(u, k)
    requires !Misplaces(u, k.Bounds(), s) && Spared(u, k)
    ensures var w := WithSupport(u, k.Bounds(), s);
            && SupportPhase(u, s, k.Bounds()) == Reached(w, t, m.Bounds())
            && Follows(u, k, s.start, w, m, t.start) && Heads(w, k.start, t) && m.Holds(t.start)
  {
    hide *;
    var b, w := k.Bounds(), WithSupport(u, k.Bounds(), s);
    HeadsForm(u, k.start, s);
    StandsForm(u, k, s.start);
    var g;
    m, g := SupportFollows(u, k, s);
    RefreshStands(u, k, s.start);
    FollowsForm(u, k, s.start, w, m, g);
    var v := AfterRefresh(u, InstallRefresh(u, b));
    FollowsForm(u, k, s.start, v, RefreshedJob(u, k), Frontier(u, b, s.start));
    var x := SparedForm(u, k);
    RefreshSpares(u, k, x);
    FrontierForm(u, k, x);
    t := ExposedIsFound(v, RefreshedJob(u, k), Frontier(u, b, s.start), w, m, g, Frontier(u, b, x));
    FollowsToHead(u, k, s.start, w, m, g, t);
    StandsForm(w, m, g);
    InJobForm(m, t.start);
    HeadsForm(w, k.start, t);
    JobLocated(w, m, t.start);
    FoundAtStart(u, k, s, m, g, t);
    SupportPhaseForm(u, s, b);
    JobForm(u, k);
    LocatedForm(w, Some(t));
  }

  lemma {:induction false} SupportPhaseForm(u: seq<Line>, s: Step, job: Bounds)
    ensures var w := WithSupport(u, job, s);
            SupportPhase(u, s, job) == Located(w, FoundAgain(w, NewStart(u, job, s), job.0))
  {
    hide WithSupport, NewStart, FoundAgain, Located;
  }

  /** Whether the search starts at the step or at the job, it finds the same step. */
  lemma {:induction false} FoundAtStart(u: seq<Line>, k: Job, s: Step, m: Job, g: nat, t: Step)
    requires Stands(u, k, s.start) && Heads(u, k.start, s) && s.start < k.end
    requires var w := WithSupport(u, k.Bounds(), s);
             && FirstStep(w, k.start) == Some(t) && Stands(w, m, g) && m.start == k.start && SameUpTo(u, w, k.steps + 1)
             && (InstallRefresh(u, k.Bounds()).None? ==>
                   && g == NewStart(u, k.Bounds(), s) && 0 <= Frontier(u, k.Bounds(), s.start)
                   && SameFrom(AfterRefresh(u, InstallRefresh(u, k.Bounds())), Frontier(u, k.Bounds(), s.start), w, g))
    ensures FoundAgain(WithSupport(u, k.Bounds(), s), NewStart(u, k.Bounds(), s), k.start) == Some(t)
  {
    hide *;
    var b, w := k.Bounds(), WithSupport(u, k.Bounds(), s);
    StandsForm(u, k, s.start);
    StandsForm(w, m, g);
    HeadsForm(u, k.start, s);
    FrontierForm(u, k, s.start);
    WithSupportForm(u, b, s);
    FoundForm(w, NewStart(u, b, s), k.start);
    if InstallRefresh(u, b).Some? {
      KeyIsNoStep(u, k, w);
    } else {
      StepShifts(u, s.start, w, g, s.start);
      StepByForm(s, g - s.start);
      HeadsIf(w, k.start, StepBy(s, g - s.start));
      HeadIsFirst(w, k.start, StepBy(s, g - s.start));
    }
  }

  lemma {:induction false} StepByForm(s: Step, n: int)
    requires 0 <= s.start + n && 0 <= s.end + n
    ensures StepBy(s, n) == Step(s.start + n, s.end + n, s.indent, s.lines)
  {
  }

  /** The step found behind the frontier starts behind it. */
  lemma {:induction false} HeadBehind(w: seq<Line>, m: Job, g: nat, t: Step)
    requires Stands(w, m, g) && Heads(w, m.start, t) && m.start <= t.start
    ensures g <= t.start
  {
    hide *;
    StandsForm(w, m, g);
    HeadBlock(w, m.start, t);
    HeadsForm(w, m.start, t);
    if t.start < g {
      BlockBefore(Shapes(w), m.start, g, t.Block());
    }
  }

  lemma {:induction false} BlockBefore(t: Text, base: nat, g: nat, b: StepBlock)
    requires Aligned(t, g) && Clean(t, base, g) && IsBlock(t, b) && base <= b.start && exists r: nat :: Hot(b.lines, r)
    ensures g <= b.start
  {
    HeadIsExposed(t, base, b);
    var k: nat :| k < b.end && ExposedFrom(t, base, k);
    assert g <= k;
    if b.start < g {
      BlockCovers(t, b, g);
    }
  }
}
