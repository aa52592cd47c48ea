/** A job whose only pytest runs are in its outdated install script: when nothing that runs pytest follows the job,
    refreshing that script leaves the patcher without a step, and it gives up. */
module SwallowedJobs {
  import opened PyStrings
  import opened StepBlocks
  import opened WorkflowLines
  import opened StepRewriter
  import opened RewrittenSteps
  import opened JobMatrix
  import opened TextPatcher
  import opened WorkflowPatcher
  import opened PlainRuns
  import opened JobLayouts
  import opened JobHeaders
  import opened JobPreparation
  import opened LaidOutJobs
  import opened LaidOutRuns
  import opened SupportNames

  /** What is exposed behind a frontier was exposed before lines were put before the frontier. */
  lemma {:induction false} SuffixExposedBack(t: Text, f: nat, u: Text, g: nat, base: nat, x: nat)
    requires f <= |t| && g <= |u| && t[f..] == u[g..] && Aligned(u, g) && base <= f && g <= x && ExposedFrom(u, base, x)
    ensures ExposedFrom(t, base, x - g + f)
  {
    SuffixExposed(u, g, t, f, base, x);
  }

  lemma {:induction false} RefreshBack(u: seq<Line>, k: Job, y: nat)
    requires AllRead(u) && IsJob(u, k) && RefreshBelow(u, k) && AllRefreshed(u, k)
    requires ExposedFrom(Shapes(AfterRefresh(u, InstallRefresh(u, k.Bounds()))), k.start, y)
    ensures exists x: nat :: k.end <= x && ExposedFrom(Shapes(u), k.start, x)
  {
    RefreshedSome(u, k);
    hide *;
    JobForm(u, k);
    var r := InstallRefresh(u, k.Bounds());
    var s := InstallParts(u, k);
    InJobForm(k, s.start);
    RefreshedText(u, r.value);
    var v := AfterRefresh(u, r);
    RefreshKeepsExposed(Shapes(u), k.start, r.value.0, r.value.1, 4, Shapes(v), y);
    var x: nat := LineBefore(r.value.0, r.value.1, 4, y);
    LineBeforeForm(r.value.0, r.value.1, y);
    if x < k.end {
      RefreshedHolds(u, k, x);
    }
  }

  lemma {:induction false} RefreshedSome(u: seq<Line>, k: Job)
    requires AllRefreshed(u, k)
    ensures InstallRefresh(u, k.Bounds()).Some?
  {
    hide InstallRefresh, ExposedFrom;
  }

  lemma {:induction false} RefreshedHolds(u: seq<Line>, k: Job, x: nat)
    requires AllRefreshed(u, k) && x < k.end && ExposedFrom(Shapes(u), k.start, x)
    ensures var r := InstallRefresh(u, k.Bounds()); r.Some? && r.value.0 <= x < r.value.1
  {
    hide InstallRefresh, ExposedFrom;
  }

  lemma {:induction false} LineBeforeForm(q: nat, p: nat, y: nat)
    ensures LineBefore(q, p, 4, y) == if y <= q then y else y - 5 - q + p
  {
  }

  /** Nothing behind the job runs pytest. */
  ghost predicate NothingBehind(u: seq<Line>, k: Job) {
    forall x: nat | k.end <= x :: !ExposedFrom(Shapes(u), k.start, x)
  }

  lemma {:induction false} NothingFound(u: seq<Line>, k: Job, s: Step)
    requires Stands(u, k, s.start) && StepAt(u, s.start) == Some(s) && s.start < k.end && RefreshBelow(u, k)
    requires !Misplaces(u, k.Bounds(), s) && AllRefreshed(u, k) && NothingBehind(u, k)
    ensures SupportPhase(u, s, k.Bounds()) == Stopped(AnchorNotFound)
  {
    hide *;
    StandsForm(u, k, s.start);
    RefreshedSome(u, k);
    var b, w := k.Bounds(), WithSupport(u, k.Bounds(), s);
    var m, g := SupportFollows(u, k, s);
    FollowsForm(u, k, s.start, w, m, g);
    StandsForm(w, m, g);
    FirstStepIs(w, k.start);
    if FirstStep(w, k.start).Some? {
      var y := ExposedThere(Shapes(w), k.start);
      CleanForm(Shapes(w), k.start, g, y);
      var v, f := AfterRefresh(u, InstallRefresh(u, b)), Frontier(u, b, s.start);
      FollowsForm(u, k, s.start, v, RefreshedJob(u, k), f);
      StandsForm(v, RefreshedJob(u, k), f);
      SameShapes(v, f, w, g);
      SuffixExposedBack(Shapes(v), f, Shapes(w), g, k.start, y);
      RefreshBack(u, k, y - g + f);
      BehindForm(u, k);
    }
    WithSupportForm(u, b, s);
    FrontierForm(u, k, s.start);
    FoundForm(w, NewStart(u, b, s), k.start);
    KeyIsNoStep(u, k, w);
    SupportPhaseForm(u, s, b);
    NoneLocated(w);
  }

  lemma {:induction false} ExposedThere(t: Text, base: nat) returns (y: nat)
    requires exists k: nat :: ExposedFrom(t, base, k)
    ensures ExposedFrom(t, base, y)
  {
    hide ExposedFrom;
    y :| ExposedFrom(t, base, y);
  }

  lemma {:induction false} BehindForm(u: seq<Line>, k: Job)
    requires NothingBehind(u, k)
    ensures !exists x: nat :: k.end <= x && ExposedFrom(Shapes(u), k.start, x)
  {
    hide ExposedFrom;
  }

  lemma {:induction false} NoneLocated(w: seq<Line>)
    ensures Located(w, None) == Stopped(AnchorNotFound)
  {
  }

  /** A pytest run behind a job belongs to a step behind the job. */
  lemma {:induction false} BehindIsStep(u: seq<Line>, k: Job, f: nat, x: nat) returns (d: nat)
    requires IsJob(u, k) && k.steps < f < k.end && Aligned(Shapes(u), f) && k.end <= x
    requires ExposedFrom(Shapes(u), k.start, x)
    ensures k.end <= d && PytestStep(u, d)
  {
    hide *;
    InJobForm(k, f);
    JobEndAligned(u, k, f);
    var t := Shapes(u);
    ExposedBehindLine(t, k.start, k.end, x);
    FirstStepIs(u, k.end);
    FoundBlock(u, k.end);
    var s := FirstStep(u, k.end).value;
    d := s.start;
    FoundHeads(u, k.end, k.end, s);
    HeadsForm(u, k.end, s);
    PytestStepIf(u, d);
  }

  lemma {:induction false} ExposedBehindLine(t: Text, base: nat, e: nat, x: nat)
    requires Aligned(t, e) && e <= x && ExposedFrom(t, base, x)
    ensures exists k: nat :: ExposedFrom(t, e, k)
  {
    var d: nat :| base <= d && Covers(t, d, x);
    if d < e {
      CoverPrefix(t, d, x, e);
    }
    assert ExposedFrom(t, e, x);
  }

  /** No step of the first text behind the job runs pytest, so nothing behind it does now. */
  lemma {:induction false} NothingBehindNow(text: seq<Line>, a: Job, f0: nat, u: seq<Line>, k: Job, f: nat)
    requires IsJob(text, a) && a.steps < f0 < a.end && Aligned(Shapes(text), f0)
    requires IsJob(u, k) && k.steps < f < k.end && Aligned(Shapes(u), f) && SameFrom(text, a.end, u, k.end)
    requires forall d: nat | PytestStep(text, d) :: d < a.end
    ensures NothingBehind(u, k)
  {
    hide PytestStep, IsJob, Aligned, SameFrom, ExposedFrom;
    InJobForm(a, f0);
    JobEndAligned(text, a, f0);
    forall x: nat | k.end <= x
      ensures !ExposedFrom(Shapes(u), k.start, x)
    {
      if ExposedFrom(Shapes(u), k.start, x) {
        var d := BehindIsStep(u, k, f, x);
        StepBack(text, a.end, u, k.end, d);
      }
    }
  }

  lemma {:induction false} StepBack(text: seq<Line>, i: nat, u: seq<Line>, k: nat, d: nat)
    requires SameFrom(text, i, u, k) && Aligned(Shapes(text), i) && k <= d && PytestStep(u, d)
    ensures PytestStep(text, d - k + i)
  {
    hide *;
    PytestStepForm(u, d);
    SameBack(text, i, u, k);
    StepShifts(u, k, text, i, d);
    StepByForm(StepAt(u, d).value, i - k);
    SameShapes(text, i, u, k);
    AlignedBack(Shapes(text), i, Shapes(u), k, d - k);
    PytestStepIf(text, d - k + i);
  }

  /** A swallowed job with nothing that runs pytest behind it ends the run without an anchor. */
  lemma {:induction false} RoundSwallowed(text: seq<Line>, s: State, newline: nat, w: World, step: Step, a: Job, b: Job)
    requires Arrives(text, s, newline, w, step, a, b) && InText(text, a.Bounds())
    requires !MatrixEdit(text, a.start, a.end).Conflict?
    requires !Stale(text, a, OriginStep(text, Origin(w, step))) && Swallowed(text, a)
    requires forall d: nat | PytestStep(text, d) :: d < a.end
    ensures RoundOf(s, newline) == Broken(AnchorNotFound)
  {
    hide *;
    ArrivesForm(text, s, newline, w, step, a, b);
    JobArrived(text, s, newline, w, step, a, b);
    InvForm(text, s, newline, w);
    LayoutForm(text, s.lines, s.search, w);
    LaidOutParts(s.lines, b);
    AxisReaches(s.lines, b, step);
    AxisHeads(s.lines, b, step);
    AxedForm(s.lines, b, step);
    StaleForm(s.lines, b, step);
    SwallowedForm(s.lines, b);
    var u, k, s1 := Axed(s.lines, b), AxedJob(s.lines, b), AxedStep(s.lines, b, step);
    AxedStands(s.lines, b, u, k, s1);
    StandsForm(u, k, s1.start);
    HeadsForm(u, b.start, s1);
    FirstOfJobForm(text, a, Origin(w, step));
    LaidOutForm(text, a);
    PytestStepForm(text, Origin(w, step));
    BehindSame(text, w, s.lines, a, b, u, k);
    NothingBehindNow(text, a, Origin(w, step), u, k, s1.start);
    NothingFound(u, k, s1);
    NewIsPrepared(s, step, b.Bounds(), newline);
    RoundForm(s, newline, step, b.Bounds(), Prepared(s, step, b.Bounds(), newline));
  }

  lemma {:induction false} BehindSame(text: seq<Line>, w: World, lines: seq<Line>, a: Job, b: Job, u: seq<Line>, k: Job)
    requires SameFrom(text, w.cut, lines, w.at) && w.cut <= a.end <= |text| && b.end == a.end + w.at - w.cut
    requires Given(lines, b, u) && IsJob(lines, b) && k == Job(b.start, b.steps + |u| - |lines|, b.end + |u| - |lines|)
    ensures SameFrom(text, a.end, u, k.end)
  {
    hide *;
    JobForm(lines, b);
    GivenForm(lines, b, u);
    SameLater(text, w.cut, lines, w.at, a.end - w.cut);
    SameLater(lines, b.steps, u, k.steps, b.end - b.steps);
    SameThrough(text, a.end, lines, b.end, u, k.end);
  }

  // ---------------------------------------------------------------- a swallowed job that others follow

  /** What is found after a swallowed job was prepared stands behind the job. */
  lemma {:induction false} FoundIsBehind(u: seq<Line>, k: Job, s: Step, m: Job, g: nat, t: Step)
    requires Stands(u, k, s.start) && StepAt(u, s.start) == Some(s) && s.start < k.end && RefreshBelow(u, k)
    requires !Misplaces(u, k.Bounds(), s) && AllRefreshed(u, k) && 0 <= Frontier(u, k.Bounds(), s.start)
    requires var v, w, f := AfterRefresh(u, InstallRefresh(u, k.Bounds())), WithSupport(u, k.Bounds(), s),
             Frontier(u, k.Bounds(), s.start);
             && Follows(u, k, s.start, w, m, g) && Follows(u, k, s.start, v, RefreshedJob(u, k), f)
                && SameFrom(v, f, w, g)
             && m.end - RefreshedJob(u, k).end == g - f && FirstStep(w, k.start) == Some(t)
    ensures m.end <= t.start
  {
    hide *;
    StandsForm(u, k, s.start);
    RefreshedSome(u, k);
    var b, w := k.Bounds(), WithSupport(u, k.Bounds(), s);
    var v, n, f := AfterRefresh(u, InstallRefresh(u, b)), RefreshedJob(u, k), Frontier(u, b, s.start);
    FollowsForm(u, k, s.start, w, m, g);
    StandsForm(w, m, g);
    FollowsForm(u, k, s.start, v, n, f);
    StandsForm(v, n, f);
    var y := HotInFound(w, k.start, t);
    CleanForm(Shapes(w), k.start, g, y);
    SameShapes(v, f, w, g);
    SuffixExposedBack(Shapes(v), f, Shapes(w), g, k.start, y);
    RefreshedBehind(u, k, y - g + f);
    InJobForm(m, g);
    JobEndAligned(w, m, g);
    FoundStepForm(w, k.start, t);
    FrontierAside(Shapes(w), t.Block(), m.end);
    FirstIsBlock(Shapes(w), k.start, t.Block());
    BlockBounds(t);
  }

  lemma {:induction false} FirstIsBlock(t: Text, from: nat, b: StepBlock)
    requires FirstPytestBlock(t, from, b)
    ensures IsBlock(t, b)
  {
    hide IsBlock, ExposedFrom, Hot;
  }

  /** A pytest run of the step found, as the search sees it. */
  lemma {:induction false} HotInFound(w: seq<Line>, from: nat, t: Step) returns (y: nat)
    requires FirstStep(w, from) == Some(t)
    ensures t.start <= y < t.end && ExposedFrom(Shapes(w), from, y)
  {
    hide *;
    FoundStepForm(w, from, t);
    FirstIsBlock(Shapes(w), from, t.Block());
    y := HotInBlockFrom(Shapes(w), from, t.Block());
    BlockBounds(t);
  }

  lemma {:induction false} BlockBounds(t: Step)
    ensures t.Block().start == t.start && t.Block().end == t.end
  {
  }

  lemma {:induction false} HotInBlockFrom(u: Text, from: nat, b: StepBlock) returns (y: nat)
    requires FirstPytestBlock(u, from, b)
    ensures b.start <= y < b.end && ExposedFrom(u, from, y)
  {
    var r: nat :| Hot(b.lines, r);
    y := b.start + r;
    HotInBlock(u, b, y);
    BlockCovers(u, b, y);
  }

  /** What is exposed after the refresh stands behind the job. */
  lemma {:induction false} RefreshedBehind(u: seq<Line>, k: Job, y: nat)
    requires AllRead(u) && IsJob(u, k) && RefreshBelow(u, k) && AllRefreshed(u, k)
    requires ExposedFrom(Shapes(AfterRefresh(u, InstallRefresh(u, k.Bounds()))), k.start, y)
    ensures RefreshedJob(u, k).end <= y
  {
    RefreshedSome(u, k);
    hide *;
    JobForm(u, k);
    FrontierForm(u, k, k.start);
    var r := InstallRefresh(u, k.Bounds());
    var s := InstallParts(u, k);
    InJobForm(k, s.start);
    RefreshedText(u, r.value);
    var v := AfterRefresh(u, r);
    RefreshKeepsExposed(Shapes(u), k.start, r.value.0, r.value.1, 4, Shapes(v), y);
    var x: nat := LineBefore(r.value.0, r.value.1, 4, y);
    LineBeforeForm(r.value.0, r.value.1, y);
    if x < k.end {
      RefreshedHolds(u, k, x);
    }
  }

  /** A pytest step behind a job keeps the search from finding nothing. */
  lemma {:induction false} SomethingFound(w: seq<Line>, base: nat, d: nat)
    requires PytestStep(w, d) && base <= d
    ensures FirstStep(w, base).Some?
  {
    hide *;
    PytestStepForm(w, d);
    var s := StepAt(w, d).value;
    StepIsFound(w, base, s);
    FirstStepIs(w, base);
  }

  lemma {:induction false} StepIsFound(w: seq<Line>, base: nat, s: Step)
    requires StepAt(w, s.start) == Some(s) && base <= s.start && !Cold(Shapes(s.lines))
    ensures exists k: nat :: ExposedFrom(Shapes(w), base, k)
  {
    hide StepEnd;
    HeadIsExposed(Shapes(w), base, s.Block());
  }

  /** The job of a step behind a job of the first text is found there now. */
  lemma {:induction false} LaterJobFound(text: seq<Line>, a: Job, f0: nat, w: seq<Line>, m: Job, t: Step)
    requires LaidOut(text) && AllRead(text) && IsJob(text, a) && a.steps < f0 < a.end && Aligned(Shapes(text), f0)
    requires SameFrom(text, a.end, w, m.end) && m.end <= t.start && FirstStep(w, m.start) == Some(t) && m.start <= m.end
    requires IsJob(w, m) && m.steps < m.end && Aligned(Shapes(w), m.end)
    ensures JobOf(w, t.start).Some? && m.end <= JobOf(w, t.start).value.0
  {
    hide *;
    InJobForm(a, f0);
    JobEndAligned(text, a, f0);
    FoundStepForm(w, m.start, t);
    FirstBlockIsFrontier(Shapes(w), m.start, m.end, t.Block());
    JobForm(w, m);
    PytestStepIf(w, t.start);
    StepBack(text, a.end, w, m.end, t.start);
    var e: nat := t.start - m.end + a.end;
    var c := JobOfStep(text, e);
    LaidOutForm(text, c);
    InJobForm(c, e);
    JobsApart(text, a, c, e);
    JobShifts(text, a.end, w, m.end, c);
    ByForm(c, m.end - a.end);
    JobLocated(w, c.By(m.end - a.end), t.start);
  }

  lemma {:induction false} StepsLater(text: seq<Line>, a: Job, f0: nat, w: seq<Line>, m: Job, d: nat)
    requires IsJob(text, a) && a.steps < f0 < a.end && Aligned(Shapes(text), f0) && SameFrom(text, a.end, w, m.end)
    requires IsJob(w, m) && Aligned(Shapes(w), m.end) && PytestStep(text, d) && a.end <= d
    ensures PytestStep(w, d - a.end + m.end)
  {
    hide *;
    InJobForm(a, f0);
    JobEndAligned(text, a, f0);
    SameBack(text, a.end, w, m.end);
    StepBack(w, m.end, text, a.end, d);
  }

  /** A swallowed job that pytest steps follow: the round prepares the job, but the step it rewrites belongs to a later
      one, which has been given neither axis nor support steps. */
  lemma {:induction false} RoundSwallowedOn(text: seq<Line>, s: State, newline: nat, w: World, step: Step, a: Job,
                                            b: Job, d: nat)
    returns (n: State, p: seq<Line>, m: Job, t: Step, axis: Change, support: Change)
    requires Arrives(text, s, newline, w, step, a, b) && InText(text, a.Bounds())
    requires !MatrixEdit(text, a.start, a.end).Conflict?
    requires !Stale(text, a, OriginStep(text, Origin(w, step))) && Swallowed(text, a) && LaidOut(text)
    requires PytestStep(text, d) && a.end <= d
    ensures RoundOf(s, newline) == Done(n, [axis, support, StepRewritten(p, t)])
    ensures axis.AxisEnsured? && axis.job == b.Bounds() && support.SupportEnsured? && support.job.0 == b.start
    ensures IsJob(p, m) && m.start == b.start && m.end <= t.start && JobOf(p, t.start).Some?
    ensures m.end <= JobOf(p, t.start).value.0
  {
    hide *;
    ArrivesForm(text, s, newline, w, step, a, b);
    JobArrived(text, s, newline, w, step, a, b);
    InvForm(text, s, newline, w);
    LayoutForm(text, s.lines, s.search, w);
    LaidOutParts(s.lines, b);
    JobForm(s.lines, b);
    AxisReaches(s.lines, b, step);
    AxisHeads(s.lines, b, step);
    AxedForm(s.lines, b, step);
    StaleForm(s.lines, b, step);
    SwallowedForm(s.lines, b);
    var u, k, s1 := Axed(s.lines, b), AxedJob(s.lines, b), AxedStep(s.lines, b, step);
    AxedStands(s.lines, b, u, k, s1);
    StandsForm(u, k, s1.start);
    HeadsForm(u, b.start, s1);
    FirstOfJobForm(text, a, Origin(w, step));
    LaidOutForm(text, a);
    PytestStepForm(text, Origin(w, step));
    BehindSame(text, w, s.lines, a, b, u, k);
    var g;
    m, g := SupportFollows(u, k, s1);
    p := WithSupport(u, k.Bounds(), s1);
    FollowsForm(u, k, s1.start, p, m, g);
    StandsForm(p, m, g);
    SameThrough(text, a.end, u, k.end, p, m.end);
    InJobForm(m, g);
    JobEndAligned(p, m, g);
    StepsLater(text, a, Origin(w, step), p, m, d);
    SomethingFound(p, m.start, d - a.end + m.end);
    t := FirstStep(p, m.start).value;
    FoundIsBehind(u, k, s1, m, g, t);
    LaterJobFound(text, a, Origin(w, step), p, m, t);
    RefreshedSome(u, k);
    WithSupportForm(u, k.Bounds(), s1);
    JobForm(u, k);
    FoundForm(p, NewStart(u, k.Bounds(), s1), k.start);
    KeyIsNoStep(u, k, p);
    SupportPhaseForm(u, s1, k.Bounds());
    FoundStepForm(p, m.start, t);
    LocatedForm(p, Some(t));
    NewIsPrepared(s, step, b.Bounds(), newline);
    RoundForm(s, newline, step, b.Bounds(), Prepared(s, step, b.Bounds(), newline));
    n := RoundOf(s, newline).next;
    axis, support := AxisEnsured(s.lines, b.Bounds()), SupportEnsured(u, k.Bounds(), s1);
    ThreeChanges(axis, support, StepRewritten(p, t));
  }
}
