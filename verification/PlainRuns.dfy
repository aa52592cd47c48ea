/** Runs over any workflow whose run keys are written plainly, as long as the support steps are inserted in place: they
    end, and they leave no step that runs pytest. */
module PlainRuns {
  import opened PyStrings
  import opened StepBlocks
  import opened WorkflowLines
  import opened StepRewriter
  import opened RewrittenSteps
  import opened JobMatrix
  import opened TextPatcher
  import opened WorkflowPatcher

  /** Lines before `f` are dealt with: no block reaches line `f`, and no pytest step is before it; in a run over a
      plain text the rest is plain. */
  ghost predicate Progress(plain: bool, t: Text, f: nat) {
    f <= |t| && Aligned(t, f) && Clean(t, 0, f) && (plain ==> PlainFrom(t, f))
  }

  lemma {:induction false} ProgressToBlock(plain: bool, t: Text, from: nat, f: nat, b: StepBlock)
    requires Progress(plain, t, f) && FirstPytestBlock(t, from, b) && from <= f
    ensures f <= b.start && Progress(plain, t, b.start) && HotsFrom(t, b.end) < HotsFrom(t, b.start) <= HotsFrom(t, f)
  {
    FirstBlockStaysClean(t, 0, from, f, b);
    if plain { PlainSuffix(t, f, b.start); }
    FirstBlockIsFrontier(t, from, f, b);
    HotsShrink(t, f, b.start);
    var r: nat :| Hot(b.lines, r);
    HotInBlock(t, b, b.start + r);
    HotsShrink(t, b.start, b.end);
  }

  /** The text after the change, and how far it is dealt with: nothing is left to do that was not before. */
  ghost predicate Onward(plain: bool, lines: seq<Line>, f: nat, u: seq<Line>, g: nat) {
    && AllRead(u) && Progress(plain, Shapes(u), g)
    && f <= |lines| && HotsFrom(Shapes(u), g) <= HotsFrom(Shapes(lines), f)
  }

  /** The step found is at the frontier, and there is less to do behind it. */
  ghost predicate AtStep(plain: bool, lines: seq<Line>, f: nat, u: seq<Line>, s: Step) {
    && StepAt(u, s.start) == Some(s) && !Cold(Shapes(s.lines)) && Onward(plain, lines, f, u, s.start)
    && HotsFrom(Shapes(u), s.end) < HotsFrom(Shapes(u), s.start)
  }

  lemma {:induction false} ProgressToStep(plain: bool, lines: seq<Line>, f: nat, u: seq<Line>, g: nat, from: nat)
    requires Onward(plain, lines, f, u, g) && from <= g && FirstStep(u, from).Some?
    ensures AtStep(plain, lines, f, u, FirstStep(u, from).value)
  {
    hide AllRead, Progress, FirstStep, StepAt;
    FirstStepIs(u, from);
    ProgressToBlock(plain, Shapes(u), from, g, FirstStep(u, from).value.Block());
  }

  // ---------------------------------------------------------------- the axis

  lemma {:induction false} ProgressOverInsert(plain: bool, t: Text, p: nat, n: nat, u: Text, f: nat)
    requires Progress(plain, t, f) && Inserted(t, p, n, u) && forall k | p <= k < p + n :: !u[k].Env()
    ensures Progress(plain, u, Shifted(f, p, n)) && HotsFrom(u, Shifted(f, p, n)) <= HotsFrom(t, f)
  {
    InsertKeepsFrontier(t, 0, p, n, u, f);
    InsertHots(t, p, n, u, f);
    if plain { PlainInsert(t, p, n, u, f); }
  }

  /** Inserting the axis anywhere in the job keeps the frontier, which moves with its line. */
  lemma {:induction false} AxisProgress(plain: bool, lines: seq<Line>, job: Bounds, f: nat) returns (g: nat)
    requires AllRead(lines) && Progress(plain, Shapes(lines), f) && InText(lines, job) && job.0 < f
    ensures Onward(plain, lines, f, WithAxis(lines, job), g) && job.0 < g
  {
    hide MatrixEdit, WellRead, Progress, HotsFrom;
    var e, u := MatrixEdit(lines, job.0, job.1), WithAxis(lines, job);
    g := f;
    if e.Add? {
      g := Shifted(f, e.at, |e.lines|);
      assert forall k | e.at <= k < e.at + |e.lines| :: u[k] == e.lines[k - e.at];
      InsertedShapes(lines, e.at, e.lines);
      ProgressOverInsert(plain, Shapes(lines), e.at, |e.lines|, Shapes(u), f);
    } else {
      FrontierInText(plain, Shapes(lines), f);
    }
  }

  lemma {:induction false} FrontierInText(plain: bool, t: Text, f: nat)
    requires Progress(plain, t, f)
    ensures f <= |t|
  {
  }

  lemma {:induction false} AxisKeeps(plain: bool, lines: seq<Line>, job: Bounds, f: nat)
    requires AllRead(lines) && Progress(plain, Shapes(lines), f) && InText(lines, job) && job.0 < f
    ensures var p := AxisPhase(lines, job);
            p.Reached? ==> AtStep(plain, lines, f, p.lines, p.step) && p.job.0 < p.step.start
  {
    hide *;
    AxisReached(lines, job);
    if AxisPhase(lines, job).Reached? {
      var g := AxisProgress(plain, lines, job, f);
      ProgressToStep(plain, lines, f, WithAxis(lines, job), g, job.0);
    }
  }

  lemma {:induction false} AxisReached(lines: seq<Line>, job: Bounds)
    requires InText(lines, job)
    ensures var p := AxisPhase(lines, job);
            p.Reached? ==>
              p.lines == WithAxis(lines, job) && FirstStep(p.lines, job.0) == Some(p.step)
              && p.job.0 < p.step.start
  {
    hide MatrixEdit, WithAxis, FirstStep;
  }

  // ---------------------------------------------------------------- the support steps

  /** The lines that a refresh replaces are those of a step, so the frontier is not among them. */
  lemma {:induction false} RefreshAsideFrontier(lines: seq<Line>, job: Bounds, f: nat)
    requires Aligned(Shapes(lines), f) && InstallRefresh(lines, job).Some?
    ensures var r := InstallRefresh(lines, job).value;
            job.0 < r.0 && RunExtent(Shapes(lines), r.0, r.1) && (f <= r.0 || r.1 <= f)
  {
    hide Outdated, NamesOfSteps, StepNamed, StepAt, StepName, NormalizedName, Shapes, Covers, RunExtent;
    InstallRefreshExtent(lines, job);
    var s := StepNamed(lines, job.0, job.1, INSTALL_STEP_NAME).value;
    OutdatedExtent(lines, s);
    if s.start < f < s.end {
      BlockCovers(Shapes(lines), s.Block(), f);
    }
  }

  lemma {:induction false} ProgressOverRefresh(plain: bool, t: Text, q: nat, p: nat, n: nat, u: Text, f: nat)
    requires Progress(plain, t, f) && Refreshed(t, q, p, n, u) && (f <= q || p <= f)
    ensures 0 <= Moved(f, q, p, n) <= |u| && Progress(plain, u, Moved(f, q, p, n))
    ensures HotsFrom(u, Moved(f, q, p, n)) <= HotsFrom(t, f)
  {
    RefreshKeepsFrontier(t, 0, q, p, n, u, f);
    RefreshHots(t, q, p, n, u, f);
    if plain { PlainRefresh(t, q, p, n, u, f); }
  }

  lemma {:induction false} RefreshedText(lines: seq<Line>, r: (nat, nat))
    requires RunExtent(Shapes(lines), r.0, r.1) && AllRead(lines)
    ensures var u := AfterRefresh(lines, Some(r));
            r.0 < r.1 <= |lines| && Refreshed(Shapes(lines), r.0, r.1, 4, Shapes(u)) && AllRead(u)
  {
    hide WellRead, Refreshed, Refreshing;
    RefreshingRefreshes(lines, r.0, r.1);
  }

  /** A line that a refresh leaves in its place keeps its kind and depth, and none moves above the refreshed key. */
  lemma {:induction false} RefreshKeepsLine(t: Text, q: nat, p: nat, u: Text, f: nat, job: nat)
    requires Refreshed(t, q, p, 4, u) && (f <= q || p <= f) && job <= q
    ensures job <= f ==> job <= Moved(f, q, p, 4)
    ensures Moved(f, q, p, 4) == f && f < |t| ==> f < |u| && u[f].kind == t[f].kind && u[f].indent == t[f].indent
  {
  }

  /** Where the frontier is after the refresh. */
  function Frontier(lines: seq<Line>, job: Bounds, f: nat): int {
    var r := InstallRefresh(lines, job); if r.Some? then Moved(f, r.value.0, r.value.1, 4) else f
  }

  /** A refresh of the install step keeps the frontier; a step at a frontier that stays in place stays there too. */
  lemma {:induction false} RefreshProgress(plain: bool, lines: seq<Line>, job: Bounds, f: nat)
    requires AllRead(lines) && Progress(plain, Shapes(lines), f) && job.0 < f
    ensures var u, g := AfterRefresh(lines, InstallRefresh(lines, job)), Frontier(lines, job, f);
            && job.0 <= g && Onward(plain, lines, f, u, g)
            && (g == f && f < |lines| ==>
                 f < |u| && Shapes(u)[f].kind == Shapes(lines)[f].kind
                 && Shapes(u)[f].indent == Shapes(lines)[f].indent)
  {
    hide WellRead, InstallRefresh, AfterRefresh, HotsFrom, Moved, RunExtent, Refreshed, Aligned, Clean, PlainFrom;
    var r := InstallRefresh(lines, job);
    if r.Some? {
      RefreshAsideFrontier(lines, job, f);
      RefreshedText(lines, r.value);
      var u := Shapes(AfterRefresh(lines, r));
      RefreshKeepsLine(Shapes(lines), r.value.0, r.value.1, u, f, job.0);
      ProgressOverRefresh(plain, Shapes(lines), r.value.0, r.value.1, 4, u, f);
    }
  }

  /** What is misplaced is exactly what is inserted at another line than that of the step. */
  lemma {:induction false} MisplacedMoves(lines: seq<Line>, job: Bounds, step: Step)
    ensures Misplaces(lines, job, step) <==>
              Lacking(lines, job, step.indent) != []
              && Frontier(lines, job, step.start) != step.start
  {
    hide Lacking, InstallRefresh;
    assert |INSTALL_RUN_COMMANDS| == 4;
  }

  /** Replacing lines `f..b` at the frontier by a step that does not run pytest moves the frontier behind it. */
  lemma {:induction false} ProgressOverStep(plain: bool, t: Text, f: nat, b: nat, ls: Text, step: nat)
    requires Progress(plain, t, f) && f < |t| && f <= b <= |t|
    requires t[f].Dash() && t[f].indent == step && (b < |t| ==> t[b].Ends(step))
    requires StepShaped(ls, step) && Cold(ls)
    ensures Progress(plain, Substituted(t, f, b, ls), f + |ls|)
    ensures HotsFrom(Substituted(t, f, b, ls), f + |ls|) == HotsFrom(t, b)
  {
    var u := Substituted(t, f, b, ls);
    SplicedLines(t, f, b, ls);
    ReplaceKeepsAlignment(t, f, b, ls, step);
    SuffixHots(u, f + |ls|, t, b);
    ReplaceStaysClean(t, 0, f, b, ls, step);
    if plain {
      PlainSuffix(t, f, b);
      PlainSameSuffix(t, b, u, f + |ls|);
    }
  }

  lemma {:induction false} ShapesOfSplice(lines: seq<Line>, a: nat, b: nat, ls: seq<Line>)
    requires a <= b <= |lines|
    ensures Shapes(lines[..a] + ls + lines[b..]) == Substituted(Shapes(lines), a, b, Shapes(ls))
  {
  }

  /** Support steps inserted at the frontier, before a step of the same depth, move the frontier behind them. */
  lemma {:induction false} SupportProgress(plain: bool, lines: seq<Line>, names: set<string>, indent: nat, f: nat)
    requires AllRead(lines) && Progress(plain, Shapes(lines), f) && f < |lines|
    requires lines[f].shape.Dash() && lines[f].shape.indent == indent && MissingSteps(names, indent) != []
    ensures var added := MissingSteps(names, indent); Onward(plain, lines, f, InsertLines(lines, f, added), f + |added|)
  {
    hide WellRead, MissingSteps, Progress, HotsFrom, StepShaped, Cold;
    var added := MissingSteps(names, indent);
    MissingStepsAreSteps(names, indent);
    ShapesOfSplice(lines, f, f, added);
    SpliceIsRead(lines, f, f, added);
    ProgressOverStep(plain, Shapes(lines), f, f, Shapes(added), indent);
  }

  /** Ensuring the support steps in place keeps the frontier, and the step is looked for at or before it. */
  lemma {:induction false} SupportOnward(plain: bool, lines: seq<Line>, job: Bounds, step: Step) returns (g: nat)
    requires AllRead(lines) && Progress(plain, Shapes(lines), step.start) && job.0 < step.start
    requires StepAt(lines, step.start) == Some(step)
    requires !Misplaces(lines, job, step)
    ensures Onward(plain, lines, step.start, WithSupport(lines, job, step), g)
    ensures NewStart(lines, job, step) <= g && job.0 <= g
  {
    hide WellRead, InstallRefresh, AfterRefresh, HotsFrom, Moved, Aligned, Clean, PlainFrom, MissingSteps, NamesOfSteps;
    hide Misplaces, StepEnd;
    var f := step.start;
    MisplacedMoves(lines, job, step);
    RefreshProgress(plain, lines, job, f);
    var u, added := AfterRefresh(lines, InstallRefresh(lines, job)), Lacking(lines, job, step.indent);
    g := Frontier(lines, job, f);
    if added == [] {
      NothingInserted(u, Nearer(f, |u|));
    } else {
      SupportProgress(plain, u, NamesOfSteps(lines, job.0, job.1), step.indent, f);
      g := f + |added|;
    }
  }

  lemma {:induction false} NothingInserted(lines: seq<Line>, at: nat)
    requires at <= |lines|
    ensures InsertLines(lines, at, []) == lines
  {
  }

  lemma {:induction false} SupportReached(lines: seq<Line>, step: Step, job: Bounds)
    ensures var p, from := SupportPhase(lines, step, job), NewStart(lines, job, step);
            p.Reached? ==>
              && p.lines == WithSupport(lines, job, step)
              && (FirstStep(p.lines, from) == Some(p.step) || FirstStep(p.lines, job.0) == Some(p.step))
  {
    hide WithSupport, NewStart, StepAt, Hot, JobOf;
  }

  lemma {:induction false} SupportKeeps(plain: bool, lines: seq<Line>, f: nat, u: seq<Line>, step: Step, job: Bounds)
    requires AtStep(plain, lines, f, u, step) && job.0 < step.start && !Misplaces(u, job, step)
    ensures var p := SupportPhase(u, step, job); p.Reached? ==> AtStep(plain, lines, f, p.lines, p.step)
  {
    hide *;
    StepOnward(plain, lines, f, u, step);
    SupportReached(u, step, job);
    var p := SupportPhase(u, step, job);
    if p.Reached? {
      var g := SupportOnward(plain, u, job, step);
      OnwardTwice(plain, lines, f, u, step.start, p.lines, g);
      if FirstStep(p.lines, job.0) == Some(p.step) {
        ProgressToStep(plain, lines, f, p.lines, g, job.0);
      } else {
        ProgressToStep(plain, lines, f, p.lines, g, NewStart(u, job, step));
      }
    }
  }

  lemma {:induction false} StepOnward(plain: bool, lines: seq<Line>, f: nat, u: seq<Line>, step: Step)
    requires AtStep(plain, lines, f, u, step)
    ensures AllRead(u) && Progress(plain, Shapes(u), step.start) && StepAt(u, step.start) == Some(step)
    ensures Onward(plain, lines, f, u, step.start)
  {
    hide AllRead, Progress, StepAt, HotsFrom;
  }

  lemma {:induction false} OnwardTwice(plain: bool, lines: seq<Line>, f: nat, u: seq<Line>, g: nat, v: seq<Line>,
                                       h: nat)
    requires Onward(plain, lines, f, u, g) && Onward(plain, u, g, v, h)
    ensures Onward(plain, lines, f, v, h)
  {
    hide AllRead, Progress, HotsFrom;
  }

  // ---------------------------------------------------------------- the rewritten step

  lemma {:induction false} BlockIsPlain(t: Text, f: nat, b: StepBlock)
    requires PlainFrom(t, f) && f <= b.start && IsBlock(t, b)
    ensures PlainBlock(b.lines, b.indent)
  {
    assert forall k | 0 <= k < |b.lines| :: b.lines[k] == t[b.start + k];
    forall e: nat, r: nat | Under(b.lines, e, r)
      ensures b.lines[e].Env() ==> !b.lines[r].Run()
    {
      forall y | b.start + e < y <= b.start + r
        ensures t[y].Blank() || t[b.start + e].indent < t[y].indent
      {
        assert t[y] == b.lines[y - b.start];
      }
      assert Under(t, b.start + e, b.start + r);
    }
    forall r: nat | r < |b.lines| && b.lines[r].Run()
      ensures b.lines[r].indent <= b.indent + 2
    {
      BlockCovers(t, b, b.start + r);
    }
  }

  lemma {:induction false} PlainStepLeavesNothing(lines: seq<Line>, s: Step)
    requires AllRead(lines) && Progress(true, Shapes(lines), s.start) && StepAt(lines, s.start) == Some(s)
    ensures !StaysHot(s.lines, s.indent)
  {
    StepIsBlock(lines, s);
    hide WellRead, StepEnd, PlainFrom, Under, StaysHot;
    BlockIsPlain(Shapes(lines), s.start, s.Block());
    PlainLeavesNothing(s.lines, s.indent);
  }

  lemma {:induction false} StepEnds(lines: seq<Line>, s: Step)
    requires StepAt(lines, s.start) == Some(s)
    ensures s.start < s.end <= |lines| && Shapes(lines)[s.start].Dash() && Shapes(lines)[s.start].indent == s.indent
    ensures s.end < |lines| ==> Shapes(lines)[s.end].Ends(s.indent)
  {
  }

  /** Rewriting a step that leaves no pytest run behind moves the frontier behind it, and the runner is in the text. */
  lemma {:induction false} RewriteKeeps(plain: bool, lines: seq<Line>, s: Step)
    requires AllRead(lines) && Progress(plain, Shapes(lines), s.start) && StepAt(lines, s.start) == Some(s)
    requires !Cold(Shapes(s.lines))
    requires !StaysHot(s.lines, s.indent)
    ensures s.start < s.end <= |lines|
    ensures var u, g := Rewriting(lines, s), s.start + |RewriteLines(s.lines, s.indent)|;
            && AllRead(u) && Progress(plain, Shapes(u), g) && HotsFrom(Shapes(u), g) == HotsFrom(Shapes(lines), s.end)
            && HasLine(u, RUNNER_COMMAND)
  {
    hide *;
    StepEnds(lines, s);
    StepIsBlock(lines, s);
    RewrittenIsStep(s.lines, s.indent);
    RewrittenIsCold(s.lines, s.indent);
    RewrittenRunsRunner(s.lines, s.indent);
    RewritingIs(lines, s);
    var ls := RewriteLines(s.lines, s.indent);
    SpliceIsRead(lines, s.start, s.end, ls);
    SpliceHasLine(lines[..s.start], ls, lines[s.end..], RUNNER_COMMAND);
    ShapesOfSplice(lines, s.start, s.end, ls);
    ProgressOverStep(plain, Shapes(lines), s.start, s.end, Shapes(ls), s.indent);
  }

  lemma {:induction false} SpliceHasLine(a: seq<Line>, ls: seq<Line>, b: seq<Line>, text: string)
    requires HasLine(ls, text)
    ensures HasLine(a + ls + b, text)
  {
    var k :| 0 <= k < |ls| && ls[k].text == text;
    assert (a + ls + b)[|a| + k] == ls[k];
  }

  // ---------------------------------------------------------------- a round

  ghost predicate AllInPlace(log: seq<Change>) { forall c | c in log :: c.InPlace() }

  /** No step that was rewritten left a pytest run behind. */
  ghost predicate NoneStaysHot(log: seq<Change>) {
    forall c | c in log :: c.StepRewritten? ==> !StaysHot(c.step.lines, c.step.indent)
  }

  lemma {:induction false} PreparedKeeps(plain: bool, s: State, step: Step, job: Bounds, newline: nat)
    requires InText(s.lines, job) && job.0 < step.start && AtStep(plain, s.lines, s.search, s.lines, step)
    requires AllInPlace(Preparations(s, step, job, newline))
    ensures var p := Prepared(s, step, job, newline); p.Reached? ==> AtStep(plain, s.lines, s.search, p.lines, p.step)
  {
    hide AtStep, Misplaces, AxisPhase, SupportPhase;
    var key := s.KeyOf(job, newline);
    var a := if key in s.axisDone then Reached(s.lines, step, job) else AxisPhase(s.lines, job);
    if key !in s.axisDone {
      StepOnward(plain, s.lines, s.search, s.lines, step);
      AxisKeeps(plain, s.lines, job, step.start);
      if a.Reached? {
        AtStepOnward(plain, s.lines, s.search, step, a.lines, a.step);
      }
    }
    if a.Reached? && key !in s.supportDone {
      var log := Preparations(s, step, job, newline);
      assert log[|log| - 1] == SupportEnsured(a.lines, a.job, a.step) && log[|log| - 1].InPlace();
      SupportKeeps(plain, s.lines, s.search, a.lines, a.step, a.job);
    }
  }

  lemma {:induction false} AtStepOnward(plain: bool, lines: seq<Line>, f: nat, step: Step, u: seq<Line>, s: Step)
    requires AtStep(plain, lines, f, lines, step) && AtStep(plain, lines, step.start, u, s)
    ensures AtStep(plain, lines, f, u, s)
  {
    hide AllRead, Progress, StepAt, HotsFrom;
  }

  /** A round in place on a plain text: less is left to do, and the runner is in the text. */
  lemma {:induction false} RoundKeeps(plain: bool, s: State, newline: nat)
    requires AllRead(s.lines) && Progress(plain, Shapes(s.lines), s.search)
    requires RoundOf(s, newline).Done? && AllInPlace(RoundOf(s, newline).log)
    requires (plain || NoneStaysHot(RoundOf(s, newline).log))
    ensures var n := RoundOf(s, newline).next;
            && AllRead(n.lines) && Progress(plain, Shapes(n.lines), n.search) && HasLine(n.lines, RUNNER_COMMAND)
            && HotsFrom(Shapes(n.lines), n.search) < HotsFrom(Shapes(s.lines), s.search)
  {
    hide *;
    var step, job := RoundParts(s, newline);
    FrontierInText(plain, Shapes(s.lines), s.search);
    StartsOnward(plain, s.lines, s.search);
    ProgressToStep(plain, s.lines, s.search, s.lines, s.search, s.search);
    PreparedKeeps(plain, s, step, job, newline);
    var p := Prepared(s, step, job, newline);
    StepOnward(plain, s.lines, s.search, p.lines, p.step);
    StepIsHot(plain, s.lines, s.search, p.lines, p.step);
    if plain { PlainStepLeavesNothing(p.lines, p.step); }
    RewriteKeeps(plain, p.lines, p.step);
  }

  lemma {:induction false} StartsOnward(plain: bool, lines: seq<Line>, f: nat)
    requires AllRead(lines) && Progress(plain, Shapes(lines), f)
    ensures Onward(plain, lines, f, lines, f)
  {
    hide AllRead, HotsFrom;
  }

  lemma {:induction false} StepIsHot(plain: bool, lines: seq<Line>, f: nat, u: seq<Line>, s: Step)
    requires AtStep(plain, lines, f, u, s)
    ensures !Cold(Shapes(s.lines)) && s.start < s.end <= |u| && f <= |lines|
    ensures HotsFrom(Shapes(u), s.end) < HotsFrom(Shapes(u), s.start) <= HotsFrom(Shapes(lines), f)
  {
    hide AllRead, Progress, HotsFrom, StepEnd;
  }

  /** What a round that ends with a rewritten step consists of. */
  lemma {:induction false} RoundParts(s: State, newline: nat) returns (step: Step, job: Bounds)
    requires RoundOf(s, newline).Done?
    ensures FirstStep(s.lines, s.search) == Some(step) && JobOf(s.lines, step.start) == Some(job) && job.0 < step.start
    ensures InText(s.lines, job) && Prepared(s, step, job, newline).Reached?
    ensures var p, n := Prepared(s, step, job, newline), RoundOf(s, newline).next;
            && StepAt(p.lines, p.step.start) == Some(p.step) && p.step.start < p.step.end <= |p.lines|
            && n.lines == Rewriting(p.lines, p.step)
               && n.search == p.step.start + |RewriteLines(p.step.lines, p.step.indent)|
            && n.keys == s.KeysWith(job, newline)
            && n.axisDone == s.axisDone + {s.KeyOf(job, newline)}
               && n.supportDone == s.supportDone + {s.KeyOf(job, newline)}
            && RoundOf(s, newline).log == Preparations(s, step, job, newline) + [StepRewritten(p.lines, p.step)]
            && (NoneStaysHot(RoundOf(s, newline).log) ==> !StaysHot(p.step.lines, p.step.indent))
    ensures AllInPlace(RoundOf(s, newline).log) ==> AllInPlace(Preparations(s, step, job, newline))
  {
    hide FirstStep, JobOf, Prepared, Preparations, RewriteLines, Rewriting, OffsetAt, StepEnd, Misplaces, StaysHot;
    hide NoneStaysHot;
    step := FirstStep(s.lines, s.search).value;
    job := JobOf(s.lines, step.start).value;
    PreparedStep(s, step, job, newline);
    LastRewritten(Preparations(s, step, job, newline),
        StepRewritten(Prepared(s, step, job, newline).lines, Prepared(s, step, job, newline).step));
  }

  lemma {:induction false} LastRewritten(log: seq<Change>, c: Change)
    requires c.StepRewritten?
    ensures NoneStaysHot(log + [c]) ==> !StaysHot(c.step.lines, c.step.indent)
  {
    hide StaysHot;
    assert c in log + [c];
  }

  // ---------------------------------------------------------------- runs

  lemma {:induction false} RoundsNext(s: State, newline: nat, rounds: nat)
    ensures var r, all := RoundOf(s, newline), Rounds(s, newline, rounds);
            && (r.Idle? ==> all.outcome == Patched(s.lines))
            && (r.Broken? ==> all.outcome == Failed(r.error))
            && (r.Done? && rounds == 0 ==> all.outcome == Unfinished)
            && (r.Done? && rounds > 0 ==>
                  var rest := Rounds(r.next, newline, rounds - 1);
                  all.outcome == rest.outcome && all.log == r.log + rest.log
                  && (AllInPlace(all.log) <==> AllInPlace(r.log) && AllInPlace(rest.log))
                  && (NoneStaysHot(all.log) <==> NoneStaysHot(r.log) && NoneStaysHot(rest.log)))
  {
    hide RoundOf, Misplaces, StaysHot, AllInPlace, NoneStaysHot;
    if RoundOf(s, newline).Done? && rounds > 0 {
      InPlaceApart(RoundOf(s, newline).log, Rounds(RoundOf(s, newline).next, newline, rounds - 1).log);
    }
  }

  lemma {:induction false} InPlaceApart(a: seq<Change>, b: seq<Change>)
    ensures AllInPlace(a + b) <==> AllInPlace(a) && AllInPlace(b)
    ensures NoneStaysHot(a + b) <==> NoneStaysHot(a) && NoneStaysHot(b)
  {
    hide Misplaces, StaysHot;
    assert forall c | c in a :: c in a + b;
    assert forall c | c in b :: c in a + b;
  }

  lemma {:induction false} IdleIsClean(plain: bool, s: State, newline: nat)
    requires Progress(plain, Shapes(s.lines), s.search) && RoundOf(s, newline).Idle?
    ensures !HasPytestStep(Shapes(s.lines))
  {
    hide RoundOf;
    RoundFinds(s, newline);
    FirstStepIs(s.lines, s.search);
    NothingLeft(Shapes(s.lines), s.search);
  }

  lemma {:induction false} PlainRounds(plain: bool, s: State, newline: nat, rounds: nat)
    requires AllRead(s.lines) && Progress(plain, Shapes(s.lines), s.search)
    requires AllInPlace(Rounds(s, newline, rounds).log)
    requires plain || NoneStaysHot(Rounds(s, newline, rounds).log)
    ensures var o := Rounds(s, newline, rounds).outcome;
            && (o.Patched? ==> !HasPytestStep(Shapes(o.lines)))
            && (o.Patched? && (RoundOf(s, newline).Done? || HasLine(s.lines, RUNNER_COMMAND)) ==>
               HasLine(o.lines, RUNNER_COMMAND))
            && (s.search <= |s.lines| && HotsFrom(Shapes(s.lines), s.search) <= rounds ==> !o.Unfinished?)
    decreases rounds
  {
    hide *;
    RoundsNext(s, newline, rounds);
    var r := RoundOf(s, newline);
    if r.Idle? {
      IdleIsClean(plain, s, newline);
    } else if r.Done? && rounds > 0 {
      RoundKeeps(plain, s, newline);
      FrontierInText(plain, Shapes(r.next.lines), r.next.search);
      PlainRounds(plain, r.next, newline, rounds - 1);
    } else if r.Done? {
      SomethingLeft(plain, s, newline);
    }
  }

  lemma {:induction false} SomethingLeft(plain: bool, s: State, newline: nat)
    requires AllRead(s.lines) && Progress(plain, Shapes(s.lines), s.search) && RoundOf(s, newline).Done?
    ensures s.search <= |s.lines| && 0 < HotsFrom(Shapes(s.lines), s.search)
  {
    hide *;
    FrontierInText(plain, Shapes(s.lines), s.search);
    RoundFinds(s, newline);
    StartsOnward(plain, s.lines, s.search);
    ProgressToStep(plain, s.lines, s.search, s.lines, s.search, s.search);
    StepIsHot(plain, s.lines, s.search, s.lines, FirstStep(s.lines, s.search).value);
  }

  /** Every support step is inserted in place, and no rewritten step leaves a pytest run behind, as in a plain text: a
      finished run leaves no pytest step and mentions the runner, and as many rounds as there are pytest runs in the
      text are enough. */
  lemma {:induction false} CleanRun(text: seq<Line>, newline: nat, rounds: nat)
    requires AllRead(text) && AllInPlace(Run(text, newline, rounds).log)
    requires PlainFrom(Shapes(text), 0) || NoneStaysHot(Run(text, newline, rounds).log)
    ensures var o := Run(text, newline, rounds).outcome;
            && (o.Patched? ==> !HasPytestStep(Shapes(o.lines)) && HasLine(o.lines, RUNNER_COMMAND))
            && (HotsFrom(Shapes(text), 0) <= rounds ==> !o.Unfinished?)
  {
    hide FirstStep, RoundOf, AllRead, HotsFrom, PlainFrom, HasLine, StaysHot;
    RoundFinds(StartOf(text), newline);
    if FirstStep(text, 0).Some? {
      PlainRounds(PlainFrom(Shapes(text), 0), StartOf(text), newline, rounds);
    }
  }
}
