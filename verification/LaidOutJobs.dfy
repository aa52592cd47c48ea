/** Whether a job is laid out and what preparing it will meet is decided by the job and what follows it. */
module LaidOutJobs {
  import opened PyStrings
  import opened StepBlocks
  import opened WorkflowLines
  import opened StepRewriter
  import opened JobMatrix
  import opened TextPatcher
  import opened WorkflowPatcher
  import opened JobLayouts
  import opened JobHeaders
  import opened JobPreparation

  lemma {:induction false} ByForm(j: Job, n: int)
    requires 0 <= j.start + n && 0 <= j.steps + n && 0 <= j.end + n
    ensures j.By(n) == Job(j.start + n, j.steps + n, j.end + n) && j.By(n).Bounds() == (j.start + n, j.end + n)
    ensures j.Bounds() == (j.start, j.end)
  {
  }

  lemma {:induction false} HeaderShifts(a: seq<Line>, i: nat, b: seq<Line>, k: nat, j: Job)
    requires SameFrom(a, i, b, k) && i <= j.start && IsJob(a, j) && IsJob(b, j.By(k - i)) && HeaderDecides(a, j)
    ensures HeaderDecides(b, j.By(k - i))
  {
    hide SameFrom, ScanMatrix, MatrixEdit, JobKey, OpensSteps, Strip;
    SameLines(a, i, b, k);
    JobForm(a, j);
    var m, job := j.By(k - i), a[j.start].Indent();
    ScanShifts(a, i, b, k, j.start + 1, j.end, job, NOTHING);
    ScanShifts(a, i, b, k, j.start + 1, j.steps, job, NOTHING);
    assert FoundBy(NOTHING, i, k) == NOTHING;
    EditShifts(a, i, b, k, j.Bounds());
  }

  lemma {:induction false} ExposedShifts(t: Text, i: nat, u: Text, k: nat, x: nat)
    requires i <= |t| && k <= |u| && t[i..] == u[k..] && ExposedFrom(t, i, i + x)
    ensures ExposedFrom(u, k, k + x)
  {
    var d: nat :| i <= d && Covers(t, d, i + x);
    assert |t[i..]| == |u[k..]|;
    assert forall y | k <= y < |u| :: u[y] == u[k..][y - k] == t[i..][y - k] == t[y - k + i];
    SuffixHot(t, i, u, k, x);
    assert Covers(u, d - i + k, k + x);
  }

  /** The job with its axis, in two texts that agree from the job on. */
  lemma {:induction false} AxedShifts(a: seq<Line>, i: nat, b: seq<Line>, k: nat, j: Job, s: Step)
    requires SameFrom(a, i, b, k) && i <= j.start && IsJob(a, j) && s.start >= i && s.end >= i
    ensures var m := j.By(k - i);
            && InText(a, j.Bounds()) && InText(b, m.Bounds()) && |b| - |Axed(b, m)| == |a| - |Axed(a, j)|
            && SameFrom(Axed(a, j), i, Axed(b, m), k)
            && AxedJob(b, m) == AxedJob(a, j).By(k - i)
            && AxedStep(b, m, StepBy(s, k - i)) == StepBy(AxedStep(a, j, s), k - i)
            && 0 <= AxedStep(a, j, s).start + k - i && 0 <= AxedStep(a, j, s).end + k - i
  {
    hide SameFrom, WithAxis, JobKey, OpensSteps;
    JobForm(a, j);
    AxisShifts(a, i, b, k, j.Bounds());
  }

  lemma {:induction false} LaidOutParts(a: seq<Line>, j: Job)
    requires LaidOutJob(a, j)
    ensures IsJob(a, j) && HeaderDecides(a, j) && InText(a, j.Bounds()) && RefreshBelow(Axed(a, j), AxedJob(a, j))
    ensures AxedJob(a, j).start == j.start && j.start < AxedJob(a, j).steps < AxedJob(a, j).end
  {
    LaidOutForm(a, j);
    hide HeaderDecides, IsJob, InstallRefresh, StepNamed, INSTALL_STEP_NAME;
  }

  lemma {:induction false} LaidOutIf(a: seq<Line>, j: Job)
    requires IsJob(a, j) && HeaderDecides(a, j) && InText(a, j.Bounds()) && RefreshBelow(Axed(a, j), AxedJob(a, j))
    ensures LaidOutJob(a, j)
  {
    hide HeaderDecides, IsJob, InstallRefresh, StepNamed, INSTALL_STEP_NAME;
  }

  lemma {:induction false} BelowShifts(u: seq<Line>, i: nat, v: seq<Line>, k: nat, m: Job)
    requires SameFrom(u, i, v, k) && i <= m.start && i <= m.steps && i <= m.end && RefreshBelow(u, m)
    ensures RefreshBelow(v, m.By(k - i))
  {
    hide SameFrom, InstallRefresh, StepNamed, INSTALL_STEP_NAME, StepAt;
    RefreshShifts(u, i, v, k, m.Bounds());
    StepNamedShifts(u, i, v, k, m.start, m.end, INSTALL_STEP_NAME);
    if InstallRefresh(u, m.Bounds()).Some? {
      RefreshNames(u, m.Bounds());
    }
  }

  lemma {:induction false} RefreshNames(u: seq<Line>, b: Bounds)
    requires InstallRefresh(u, b).Some?
    ensures StepNamed(u, b.0, b.1, INSTALL_STEP_NAME).Some?
  {
    hide NamesOfSteps, StepNamed, Outdated, INSTALL_STEP_NAME;
  }

  /** A job laid out in one text is laid out in another one that agrees from it on. */
  lemma {:induction false} LaidOutShifts(a: seq<Line>, i: nat, b: seq<Line>, k: nat, j: Job)
    requires SameFrom(a, i, b, k) && i <= j.start && LaidOutJob(a, j)
    ensures LaidOutJob(b, j.By(k - i))
  {
    hide *;
    LaidOutParts(a, j);
    JobForm(a, j);
    ByForm(j, k - i);
    JobShifts(a, i, b, k, j);
    HeaderShifts(a, i, b, k, j);
    AxedShifts(a, i, b, k, j, Step(i, i, 0, []));
    BelowShifts(Axed(a, j), i, Axed(b, j.By(k - i)), k, AxedJob(a, j));
    LaidOutIf(b, j.By(k - i));
  }

  lemma {:induction false} MisplacesShifts(u: seq<Line>, i: nat, v: seq<Line>, k: nat, m: Bounds, s: Step)
    requires SameFrom(u, i, v, k) && i <= m.0 && i <= m.1 && i <= s.start && i <= s.end
    ensures Misplaces(v, BoundsBy(m, k - i), StepBy(s, k - i)) == Misplaces(u, m, s)
  {
    hide SameFrom, InstallRefresh, NamesOfSteps, MissingSteps, INSTALL_RUN_COMMANDS;
    RefreshShifts(u, i, v, k, m);
    NamesShift(u, i, v, k, m.0, m.1);
  }

  lemma {:induction false} BoundsForm(m: Job, n: int)
    requires 0 <= m.start + n && 0 <= m.steps + n && 0 <= m.end + n
    ensures m.By(n).Bounds() == BoundsBy(m.Bounds(), n)
  {
  }

  lemma {:induction false} StaleShifts(a: seq<Line>, i: nat, b: seq<Line>, k: nat, j: Job, s: Step)
    requires SameFrom(a, i, b, k) && i <= j.start && LaidOutJob(a, j) && i <= s.start && i <= s.end
    ensures var m := j.By(k - i);
            InText(a, j.Bounds()) && InText(b, m.Bounds()) && Stale(b, m, StepBy(s, k - i)) == Stale(a, j, s)
  {
    hide *;
    LaidOutParts(a, j);
    JobForm(a, j);
    ByForm(j, k - i);
    AxedShifts(a, i, b, k, j, s);
    var u, m, t := Axed(a, j), AxedJob(a, j), AxedStep(a, j, s);
    AxedForm(a, j, s);
    ByForm(m, k - i);
    BoundsForm(m, k - i);
    MisplacesShifts(u, i, Axed(b, j.By(k - i)), k, m.Bounds(), t);
    StaleForm(a, j, s);
    StaleForm(b, j.By(k - i), StepBy(s, k - i));
  }

  lemma {:induction false} StaleForm(a: seq<Line>, j: Job, s: Step)
    requires InText(a, j.Bounds())
    ensures Stale(a, j, s) == Misplaces(Axed(a, j), AxedJob(a, j).Bounds(), AxedStep(a, j, s))
  {
    hide Misplaces, WithAxis;
  }

  /** The runs of job `m` that run pytest are all in the stretch to be refreshed. */
  ghost predicate AllRefreshed(u: seq<Line>, m: Job) {
    var r := InstallRefresh(u, m.Bounds());
    r.Some? && forall x: nat | x < m.end && ExposedFrom(Shapes(u), m.start, x) :: r.value.0 <= x < r.value.1
  }

  lemma {:induction false} SwallowedForm(a: seq<Line>, j: Job)
    requires InText(a, j.Bounds())
    ensures Swallowed(a, j) == AllRefreshed(Axed(a, j), AxedJob(a, j))
  {
    hide WithAxis, InstallRefresh, ExposedFrom;
  }

  lemma {:induction false} AllRefreshedShifts(u: seq<Line>, i: nat, v: seq<Line>, k: nat, m: Job)
    requires SameFrom(u, i, v, k) && i <= m.start && i <= m.steps && i <= m.end && AllRefreshed(u, m)
    ensures AllRefreshed(v, m.By(k - i))
  {
    hide SameFrom, InstallRefresh, ExposedFrom;
    RefreshShifts(u, i, v, k, m.Bounds());
    SameLength(u, i, v, k);
    var n, r := m.By(k - i), InstallRefresh(u, m.Bounds()).value;
    forall x: nat | x < n.end && ExposedFrom(Shapes(v), n.start, x)
      ensures r.0 + k - i <= x < r.1 + k - i
    {
      ExposedBack(u, i, v, k, m.start, x);
    }
  }

  lemma {:induction false} ExposedBack(u: seq<Line>, i: nat, v: seq<Line>, k: nat, start: nat, x: nat)
    requires SameFrom(u, i, v, k) && i <= start && ExposedFrom(Shapes(v), start - i + k, x)
    ensures 0 <= x - k + i && ExposedFrom(Shapes(u), start, x - k + i)
  {
    hide *;
    ExposedIsBehind(Shapes(v), start - i + k, x);
    SameLength(u, i, v, k);
    SameLater(u, i, v, k, start - i);
    SameShapes(u, start, v, start - i + k);
    ExposedShifts(Shapes(v), start - i + k, Shapes(u), start, x - (start - i + k));
  }

  lemma {:induction false} ExposedIsBehind(t: Text, base: nat, x: nat)
    requires ExposedFrom(t, base, x)
    ensures base <= x < |t|
  {
  }

  lemma {:induction false} SwallowedShifts(a: seq<Line>, i: nat, b: seq<Line>, k: nat, j: Job)
    requires SameFrom(a, i, b, k) && i <= j.start && LaidOutJob(a, j)
    ensures var m := j.By(k - i);
            InText(a, j.Bounds()) && InText(b, m.Bounds()) && (Swallowed(a, j) ==> Swallowed(b, m))
  {
    hide *;
    LaidOutParts(a, j);
    JobForm(a, j);
    ByForm(j, k - i);
    AxedShifts(a, i, b, k, j, Step(i, i, 0, []));
    SwallowedForm(a, j);
    SwallowedForm(b, j.By(k - i));
    if Swallowed(a, j) {
      AllRefreshedShifts(Axed(a, j), i, Axed(b, j.By(k - i)), k, AxedJob(a, j));
    }
  }

  lemma {:induction false} SameBack(a: seq<Line>, i: nat, b: seq<Line>, k: nat)
    requires SameFrom(a, i, b, k)
    ensures SameFrom(b, k, a, i)
  {
  }

  /** Nothing stands in the way of preparing the job of step `s`. */
  ghost predicate Fine(lines: seq<Line>, j: Job, s: Step)
    requires InText(lines, j.Bounds())
  {
    !MatrixEdit(lines, j.start, j.end).Conflict? && !Stale(lines, j, s) && !Swallowed(lines, j)
  }

  /** What preparing a job meets does not depend on what stands before it. */
  lemma {:induction false} VerdictShifts(a: seq<Line>, i: nat, b: seq<Line>, k: nat, j: Job, s: Step)
    requires SameFrom(a, i, b, k) && i <= j.start && LaidOutJob(a, j) && i <= s.start && i <= s.end
    ensures var m := j.By(k - i);
            && LaidOutJob(b, m) && InText(a, j.Bounds()) && InText(b, m.Bounds())
            && MatrixEdit(b, m.start, m.end).Conflict? == MatrixEdit(a, j.start, j.end).Conflict?
            && Stale(b, m, StepBy(s, k - i)) == Stale(a, j, s) && Swallowed(b, m) == Swallowed(a, j)
  {
    hide *;
    LaidOutParts(a, j);
    JobForm(a, j);
    ByForm(j, k - i);
    var m := j.By(k - i);
    LaidOutShifts(a, i, b, k, j);
    LaidOutParts(b, m);
    EditShifts(a, i, b, k, j.Bounds());
    EditByForm(MatrixEdit(a, j.start, j.end), k - i);
    StaleShifts(a, i, b, k, j, s);
    SwallowedShifts(a, i, b, k, j);
    SameBack(a, i, b, k);
    ByForm(m, i - k);
    SwallowedShifts(b, k, a, i, m);
  }

  lemma {:induction false} EditByForm(e: Edit, n: int)
    requires e.Add? ==> 0 <= e.at + n
    ensures EditBy(e, n).Conflict? == e.Conflict?
  {
  }
}
