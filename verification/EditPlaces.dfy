/** Where edits land: support steps inserted at a place that a refresh has moved, and an axis whose lines are taken for
    the key of the job. */
module EditPlaces {
  import opened PyStrings
  import opened StepBlocks
  import opened WorkflowLines
  import opened StepNames
  import opened StepRewriter
  import opened JobMatrix
  import opened TextPatcher
  import opened WorkflowPatcher
  import opened JobLayouts
  import opened JobHeaders
  import opened JobPreparation
  import opened SupportNames

  // ---------------------------------------------------------------- support steps

  /** Line `k` of the install script, as a refresh at depth `indent` writes it. */
  function CommandLine(indent: nat, k: nat): Line
    requires k < |INSTALL_RUN_COMMANDS|
  {
    Read(indent + 2, INSTALL_RUN_COMMANDS[k])
  }

  lemma {:induction false} InstallRunLines(indent: nat)
    ensures |INSTALL_RUN_COMMANDS| == 4 && forall k | 0 <= k < 4 :: InstallRun(indent)[k + 1] == CommandLine(indent, k)
  {
    assert |INSTALL_RUN_COMMANDS| == 4;
    hide INSTALL_RUN_COMMANDS, Read, RunHeader;
  }

  /** What line `x` of the refreshed text is: a line of the script, or the line that stood the difference of the
      lengths further down. */
  lemma {:induction false} RefreshedLine(u: seq<Line>, q: nat, p: nat, v: seq<Line>, x: nat)
    requires q < p <= |u| && q < x && v == AfterRefresh(u, Some((q, p)))
    ensures |v| == |u| - (p - q) + 5 && |INSTALL_RUN_COMMANDS| == 4
    ensures x < q + 5 ==> v[x] == CommandLine(u[q].Indent(), x - q - 1)
    ensures q + 5 <= x < |v| ==> v[x] == u[x - 5 + (p - q)]
  {
    hide *;
    RefreshForm(u, q, p);
    InstallRunLines(u[q].Indent());
    var ls := InstallRun(u[q].Indent());
    SplicedAt(u, q, p, ls, v);
    if x < q + 5 {
      assert v[x] == ls[x - q];
    }
  }

  /** The install step before the pytest step is refreshed while a support step is lacking.  The support steps are
      inserted in front of the pytest step exactly if the refresh keeps the number of lines; if not, they land inside
      the new script when the pytest step stood less than five lines behind the run key, or else in front of the line
      that the refresh has moved to where the pytest step was. */
  lemma {:induction false} SupportLands(u: seq<Line>, job: Bounds, s: Step, q: nat, p: nat, v: seq<Line>)
    requires Lacking(u, job, s.indent) != [] && InstallRefresh(u, job) == Some((q, p)) && q < p <= s.start < |u|
    requires v == AfterRefresh(u, InstallRefresh(u, job))
    ensures WithSupport(u, job, s) == InsertLines(v, Nearer(s.start, |v|), Lacking(u, job, s.indent))
    ensures var now := s.start - (p - q) + 5;
            now < |v| && v[now] == u[s.start] && (Misplaces(u, job, s) <==> now != s.start)
    ensures |INSTALL_RUN_COMMANDS| == 4 && |v| == |u| - (p - q) + 5
    ensures s.start < q + 5 ==>
              Misplaces(u, job, s) && s.start < |v|
              && v[s.start] == CommandLine(u[q].Indent(), s.start - q - 1)
    ensures q + 5 <= s.start < |v| ==> v[s.start] == u[s.start - 5 + (p - q)]
  {
    hide *;
    RefreshedLine(u, q, p, v, s.start);
    RefreshedLine(u, q, p, v, s.start - (p - q) + 5);
    WithSupportIs(u, job, s, v);
    MisplacesIs(u, job, s, q, p);
  }

  lemma {:induction false} WithSupportIs(u: seq<Line>, job: Bounds, s: Step, v: seq<Line>)
    requires v == AfterRefresh(u, InstallRefresh(u, job))
    ensures WithSupport(u, job, s) == InsertLines(v, Nearer(s.start, |v|), Lacking(u, job, s.indent))
  {
    hide InstallRefresh, AfterRefresh, Lacking;
  }

  lemma {:induction false} MisplacesIs(u: seq<Line>, job: Bounds, s: Step, q: nat, p: nat)
    requires Lacking(u, job, s.indent) != [] && InstallRefresh(u, job) == Some((q, p)) && q < s.start
    requires |INSTALL_RUN_COMMANDS| == 4
    ensures Misplaces(u, job, s) <==> p - q != 5
  {
    hide InstallRefresh, Lacking, INSTALL_RUN_COMMANDS;
  }

  // ---------------------------------------------------------------- the axis

  /** The nearest key above a steps key, if there is any. */
  lemma {:induction false} NearestKey(u: seq<Line>, steps: nat, x: nat) returns (job: nat)
    requires x < steps < |u| && JobKey(u[x], u[steps].Indent())
    ensures x <= job < steps && JobKey(u[job], u[steps].Indent())
    ensures forall k | job < k < steps :: !JobKey(u[k], u[steps].Indent())
    decreases steps - x
  {
    hide JobKey;
    if k: nat :| x < k < steps && JobKey(u[k], u[steps].Indent()) {
      job := NearestKey(u, steps, k);
    } else {
      job := x;
    }
  }

  lemma {:induction false} EndOfJob(u: seq<Line>, job: nat, i: nat) returns (end: nat)
    requires job < i <= |u| && forall k | job < k < i :: u[k].shape.Blank() || u[job].Indent() < u[k].Indent()
    ensures i <= end <= |u| && (forall k | job < k < end :: u[k].shape.Blank() || u[job].Indent() < u[k].Indent())
    ensures end < |u| ==> !u[end].shape.Blank() && u[end].Indent() <= u[job].Indent()
    decreases |u| - i
  {
    if i < |u| && (u[i].shape.Blank() || u[job].Indent() < u[i].Indent()) {
      end := EndOfJob(u, job, i + 1);
    } else {
      end := i;
    }
  }

  /** The job of a line is found as soon as some key stands above the nearest steps key. */
  lemma {:induction false} JobIsFound(u: seq<Line>, index: nat, steps: nat, x: nat)
    requires x < steps <= index < |u| && OpensSteps(u[steps]) && (forall k | steps < k <= index :: !OpensSteps(u[k]))
    requires JobKey(u[x], u[steps].Indent())
    ensures var r := JobOf(u, index); r.Some? && x <= r.value.0 < steps && JobKey(u[r.value.0], u[steps].Indent())
    ensures JobOf(u, index).Some? ==>
              var b := JobOf(u, index).value;
              && b.0 < b.1 <= |u| && (forall k | b.0 < k < b.1 :: u[k].shape.Blank() || u[b.0].Indent() < u[k].Indent())
              && (forall k | b.0 < k < steps :: !JobKey(u[k], u[steps].Indent()))
  {
    hide JobKey, OpensSteps, JobOf;
    var job := NearestKey(u, steps, x);
    var end := EndOfJob(u, job, job + 1);
    assert JobBounds(u, index, steps, job, end);
    JobIsUnique(u, index, steps, job, end);
  }

  /** After a job was given its axis, its key is found again exactly if no line that was written is taken for one. */
  lemma {:induction false} AxisKeepsKey(lines: seq<Line>, j: Job, d: nat, e: Edit, u: seq<Line>)
    requires IsJob(lines, j) && j.Holds(d) && e == MatrixEdit(lines, j.start, j.end) && e.Add? && e.at <= j.steps
    requires InText(lines, j.Bounds()) && u == WithAxis(lines, j.Bounds())
    ensures JobOf(u, d + |e.lines|).Some?
    ensures JobOf(u, d + |e.lines|).value.0 == j.start
            <==> forall k | 0 <= k < |e.lines| :: !JobKey(e.lines[k], lines[j.steps].Indent())
  {
    hide *;
    JobForm(lines, j);
    InJobForm(j, d);
    AxisForm(lines, j.Bounds());
    AxisIsDeeper(lines, j);
    EditIsBehind(lines, j);
    if forall k | 0 <= k < |e.lines| :: !JobKey(e.lines[k], lines[j.steps].Indent()) {
      HeaderSpliced(lines, j, e.at, e.lines, u);
      JobForm(u, j.Grown(|e.lines|, |e.lines|));
      GrownParts(j, |e.lines|);
      JobLocated(u, j.Grown(|e.lines|, |e.lines|), d + |e.lines|);
    } else {
      var k :| 0 <= k < |e.lines| && JobKey(e.lines[k], lines[j.steps].Indent());
      WrittenKey(lines, j, d, e.at, e.lines, u, k);
      JobIsFound(u, d + |e.lines|, j.steps + |e.lines|, e.at + k);
    }
  }

  lemma {:induction false} EditIsBehind(lines: seq<Line>, j: Job)
    requires InText(lines, j.Bounds()) && j.Bounds() == (j.start, j.end) && MatrixEdit(lines, j.start, j.end).Add?
    ensures j.start < MatrixEdit(lines, j.start, j.end).at
  {
    hide ScanMatrix, Modes;
  }

  lemma {:induction false} WrittenKey(lines: seq<Line>, j: Job, d: nat, at: nat, ls: seq<Line>, u: seq<Line>, k: nat)
    requires IsJob(lines, j) && j.steps < d < j.end && j.start < at <= j.steps && u == InsertLines(lines, at, ls)
    requires k < |ls| && JobKey(ls[k], lines[j.steps].Indent())
    ensures var n := |ls|;
            && d + n < |u| && OpensSteps(u[j.steps + n]) && (forall i | j.steps + n < i <= d + n :: !OpensSteps(u[i]))
            && u[at + k] == ls[k] && u[j.steps + n] == lines[j.steps]
  {
    hide JobKey;
    forall i | j.steps + |ls| < i <= d + |ls|
      ensures !OpensSteps(u[i])
    {
      assert u[i] == lines[i - |ls|];
    }
  }

  /** The lines written for a job without a strategy. */
  lemma {:induction false} WholeAxis(lines: seq<Line>, j: Job)
    requires IsJob(lines, j) && InText(lines, j.Bounds()) && ScanHeader(lines, j.start, j.end) == NOTHING
    ensures var job := lines[j.start].Indent();
            MatrixEdit(lines, j.start, j.end) == Add(j.steps,
                [StrategyLine(job + 2), MatrixLine(job + 4), ModeLine(job + 6)])
  {
    hide *;
    JobForm(lines, j);
    OnlySteps(lines, j);
    StepsIndexIs(lines, j.start + 1, j.end, j.start + 1, j.steps);
    EditWithout(lines, j.start, j.end, j.steps);
  }

  lemma {:induction false} OnlySteps(lines: seq<Line>, j: Job)
    requires IsJob(lines, j)
    ensures OpensSteps(lines[j.steps]) && forall k | j.start + 1 <= k < j.steps :: !OpensSteps(lines[k])
  {
    hide JobKey, OpensSteps;
  }

  lemma {:induction false} EditWithout(lines: seq<Line>, start: nat, end: nat, at: nat)
    requires start < end <= |lines| && ScanHeader(lines, start, end) == NOTHING
    requires StepsIndex(lines, start + 1, end, start + 1) == at
    ensures var job := lines[start].Indent();
            MatrixEdit(lines, start, end) == Add(at, [StrategyLine(job + 2), MatrixLine(job + 4), ModeLine(job + 6)])
  {
    hide ScanMatrix, StepsIndex, StrategyLine, MatrixLine, ModeLine;
  }

  lemma {:induction false} ModeIsNoKey()
    ensures !EndsWith(MODE_LINE, ":") && EndsWith(STRATEGY_KEY, ":") && EndsWith(MATRIX_KEY, ":")
  {
    assert MODE_LINE[|MODE_LINE| - 1] == ']';
  }

  lemma {:induction false} WrittenKeys(job: nat, steps: nat)
    ensures JobKey(StrategyLine(job + 2), steps) <==> job + 2 < steps
    ensures JobKey(MatrixLine(job + 4), steps) <==> job + 4 < steps
    ensures !JobKey(ModeLine(job + 6), steps)
  {
    ModeIsNoKey();
    hide EndsWith, MODE_LINE, STRATEGY_KEY, MATRIX_KEY, StrategyLine, MatrixLine, ModeLine;
  }

  /** A job without a strategy keeps its key exactly if its steps key is at most two columns deeper than it; otherwise
      the line written for the strategy, or the matrix, is taken for its key, and the job found there lacks the axis
      again. */
  lemma {:induction false} DeepJobLacksAxisAgain(lines: seq<Line>, j: Job, d: nat, u: seq<Line>) returns (found: Bounds)
    requires IsJob(lines, j) && j.Holds(d) && InText(lines, j.Bounds()) && ScanHeader(lines, j.start, j.end) == NOTHING
    requires u == WithAxis(lines, j.Bounds())
    ensures JobOf(u, d + 3) == Some(found) && InText(u, found)
    ensures found.0 == j.start <==> lines[j.steps].Indent() <= lines[j.start].Indent() + 2
    ensures found.0 != j.start ==> MatrixEdit(u, found.0, found.1).Add?
  {
    hide *;
    JobForm(lines, j);
    InJobForm(j, d);
    WholeAxis(lines, j);
    var job, steps := lines[j.start].Indent(), lines[j.steps].Indent();
    var ls := [StrategyLine(job + 2), MatrixLine(job + 4), ModeLine(job + 6)];
    WrittenKeys(job, steps);
    ThreeLines(ls, job, steps);
    AxisKeepsKey(lines, j, d, Add(j.steps, ls), u);
    found := JobOf(u, d + 3).value;
    AxisForm(lines, j.Bounds());
    FoundInText(u, d + 3);
    if job + 2 < steps {
      WrittenKey(lines, j, d, j.steps, ls, u, 0);
      JobIsFound(u, d + 3, j.steps + 3, j.steps);
      InsertedLines(lines, j.steps, ls, u);
      WrittenDepths(ls, job);
      assert u[found.0] == ls[found.0 - j.steps];
      NoStrategyBelow(lines, j, ls, u, found);
    }
  }

  lemma {:induction false} ThreeLines(ls: seq<Line>, job: nat, steps: nat)
    requires ls == [StrategyLine(job + 2), MatrixLine(job + 4), ModeLine(job + 6)]
    requires JobKey(StrategyLine(job + 2), steps) <==> job + 2 < steps
    requires (JobKey(MatrixLine(job + 4), steps) <==> job + 4 < steps) && !JobKey(ModeLine(job + 6), steps)
    ensures |ls| == 3 && ls[0] == StrategyLine(job + 2) && (JobKey(ls[0], steps) <==> job + 2 < steps)
    ensures (forall k | 0 <= k < |ls| :: !JobKey(ls[k], steps)) <==> steps <= job + 2
  {
    hide JobKey, StrategyLine, MatrixLine, ModeLine;
    assert ls[0] == StrategyLine(job + 2) && ls[1] == MatrixLine(job + 4) && ls[2] == ModeLine(job + 6);
  }

  lemma {:induction false} WrittenDepths(ls: seq<Line>, job: nat)
    requires ls == [StrategyLine(job + 2), MatrixLine(job + 4), ModeLine(job + 6)]
    ensures |ls| == 3 && (forall k | 0 <= k < 3 :: job < ls[k].Indent())
    ensures !ls[1].shape.kind.StrategyKey? && !ls[2].shape.kind.StrategyKey?
  {
    hide StrategyLine, MatrixLine, ModeLine;
  }

  lemma {:induction false} FoundInText(u: seq<Line>, index: nat)
    requires JobOf(u, index).Some?
    ensures var b := JobOf(u, index).value; InText(u, b) && b.0 < b.1 <= |u|
  {
    hide JobBounds;
  }

  /** Below a job without a strategy, no line opens one. */
  lemma {:induction false} NoStrategyIn(lines: seq<Line>, i: nat, j: Job, end: nat, f: Found)
    requires IsJob(lines, j) && j.start < i <= end <= j.end && Before(lines, f, i) && f.strategy.None?
    requires ScanMatrix(lines, i, end, lines[j.start].Indent(), f).strategy.None?
    ensures forall k | i <= k < end :: !lines[k].shape.kind.StrategyKey?
    decreases end - i
  {
    hide JobKey, OpensSteps;
    if i < end {
      ScanStep(lines, i, end, lines[j.start].Indent(), f);
      NoStrategyIn(lines, i + 1, j, end, Noted(f, lines[i], i));
    }
  }

  lemma {:induction false} NothingNoted(lines: seq<Line>, i: nat, end: nat, job: nat, f: Found)
    requires i <= end <= |lines| && Before(lines, f, i) && f.strategy.None?
    requires forall k | i <= k < end :: !lines[k].shape.kind.StrategyKey?
    ensures ScanMatrix(lines, i, end, job, f) == f
    decreases end - i
  {
    ScanStep(lines, i, end, job, f);
    if i < end && !Stops(lines, job, f, i) {
      NothingNoted(lines, i + 1, end, job, f);
    }
  }

  lemma {:induction false} NoStrategyBelow(lines: seq<Line>, j: Job, ls: seq<Line>, u: seq<Line>, found: Bounds)
    requires IsJob(lines, j) && InText(lines, j.Bounds()) && ScanHeader(lines, j.start, j.end) == NOTHING
    requires |ls| == 3 && u == InsertLines(lines, j.steps, ls) && j.steps <= found.0 < j.steps + 3
    requires found.0 < found.1 <= |u|
    requires !ls[1].shape.kind.StrategyKey? && !ls[2].shape.kind.StrategyKey?
    requires lines[j.start].Indent() < u[found.0].Indent()
    requires forall k | found.0 < k < found.1 :: u[k].shape.Blank() || u[found.0].Indent() < u[k].Indent()
    ensures InText(u, found) && MatrixEdit(u, found.0, found.1).Add?
  {
    hide *;
    JobForm(lines, j);
    NothingFoundYet(lines);
    ScanOfHeader(lines, j);
    NoStrategyIn(lines, j.start + 1, j, j.end, NOTHING);
    FoundEnds(lines, j, ls, u, found);
    InsertedLines(lines, j.steps, ls, u);
    forall k | found.0 + 1 <= k < found.1
      ensures !u[k].shape.kind.StrategyKey?
    {
      if k < j.steps + 3 {
        assert u[k] == ls[k - j.steps];
      } else {
        assert u[k] == lines[k - 3];
      }
    }
    NothingFoundYet(u);
    NothingNoted(u, found.0 + 1, found.1, u[found.0].Indent(), NOTHING);
    AddIf(u, found);
  }

  lemma {:induction false} NothingFoundYet(lines: seq<Line>)
    ensures forall i | 0 <= i <= |lines| :: Before(lines, NOTHING, i)
    ensures NOTHING.strategy.None?
  {
  }

  lemma {:induction false} ScanOfHeader(lines: seq<Line>, j: Job)
    requires j.start < j.end <= |lines|
    ensures Before(lines, NOTHING, j.start + 1)
    ensures ScanHeader(lines, j.start, j.end) == ScanMatrix(lines, j.start + 1, j.end, lines[j.start].Indent(), NOTHING)
  {
    hide ScanMatrix;
  }

  lemma {:induction false} InsertedLines(lines: seq<Line>, at: nat, ls: seq<Line>, u: seq<Line>)
    requires at <= |lines| && u == InsertLines(lines, at, ls)
    ensures |u| == |lines| + |ls| && (forall k | at <= k < at + |ls| :: u[k] == ls[k - at])
    ensures forall k | at + |ls| <= k < |u| :: u[k] == lines[k - |ls|]
  {
  }

  lemma {:induction false} FoundEnds(lines: seq<Line>, j: Job, ls: seq<Line>, u: seq<Line>, found: Bounds)
    requires IsJob(lines, j) && |ls| == 3 && u == InsertLines(lines, j.steps, ls) && found.0 < j.steps + 3
    requires found.0 < found.1 <= |u|
    requires lines[j.start].Indent() < u[found.0].Indent()
    requires forall k | found.0 < k < found.1 :: u[k].shape.Blank() || u[found.0].Indent() < u[k].Indent()
    ensures found.1 <= j.end + 3
  {
    hide JobKey, OpensSteps, InsertLines;
    InsertedLines(lines, j.steps, ls, u);
    if j.end < |lines| {
      LineBehind(lines, j.steps, ls, j.end);
    }
  }

  lemma {:induction false} AddIf(u: seq<Line>, found: Bounds)
    requires found.0 < found.1 <= |u| && Before(u, NOTHING, found.0 + 1)
    requires ScanMatrix(u, found.0 + 1, found.1, u[found.0].Indent(), NOTHING) == NOTHING
    ensures InText(u, found) && MatrixEdit(u, found.0, found.1).Add?
  {
    hide ScanMatrix, StepsIndex, StrategyLine, MatrixLine, ModeLine;
  }
}
