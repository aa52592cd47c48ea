/** The layout of jobs in a workflow text: where a job lies, what its header says about its axis, and that neither
    depends on what stands before the job. */
module JobLayouts {
  import opened PyStrings
  import opened StepBlocks
  import opened WorkflowLines
  import opened StepRewriter
  import opened JobMatrix
  import opened TextPatcher
  import opened WorkflowPatcher

  /** A job: its key, its steps key, and the line after it. */
  datatype Job = Job(start: nat, steps: nat, end: nat) {
    function Bounds(): (nat, nat) { (start, end) }

    /** The job with its steps `n` lines and its end `m` lines further. */
    function Grown(n: int, m: int): Job
      requires 0 <= steps + n && 0 <= end + m
    {
      Job(start, steps + n, end + m)
    }

    function By(n: int): Job
      requires 0 <= start + n && 0 <= steps + n && 0 <= end + n
    {
      Job(start + n, steps + n, end + n)
    }

    predicate Holds(line: nat) { steps < line < end }
  }

  /** The job has one steps key; its key is the nearest less deep one above, and everything in the job is deeper. */
  ghost predicate IsJob(lines: seq<Line>, j: Job) {
    && j.start < j.steps < j.end <= |lines|
    && (forall k | j.start < k < j.end :: OpensSteps(lines[k]) <==> k == j.steps)
    && JobKey(lines[j.start], lines[j.steps].Indent())
    && (forall k | j.start < k < j.steps :: !JobKey(lines[k], lines[j.steps].Indent()))
    && (forall k | j.start < k < j.end :: lines[k].shape.Blank() || lines[j.start].Indent() < lines[k].Indent())
    && (j.end < |lines| ==> !lines[j.end].shape.Blank() && lines[j.end].Indent() <= lines[j.start].Indent())
  }

  /** A step that runs pytest and that no block before it reaches. */
  ghost predicate PytestStep(lines: seq<Line>, d: nat) {
    StepAt(lines, d).Some? && !Cold(Shapes(StepAt(lines, d).value.lines)) && Aligned(Shapes(lines), d)
  }

  lemma {:induction false} JobLocated(lines: seq<Line>, j: Job, d: nat)
    requires IsJob(lines, j) && j.steps <= d < j.end
    ensures JobOf(lines, d) == Some(j.Bounds())
  {
    assert JobBounds(lines, d, j.steps, j.start, j.end);
    JobIsUnique(lines, d, j.steps, j.start, j.end);
  }

  lemma {:induction false} KeyIsNotBlank(lines: seq<Line>, j: Job)
    requires IsJob(lines, j) && AllRead(lines)
    ensures !lines[j.start].shape.Blank() && !lines[j.start].shape.Dash()
  {
    assert WellRead(lines[j.start]);
  }

  /** Jobs do not overlap: one that holds a line behind another job starts behind that job. */
  lemma {:induction false} JobsApart(lines: seq<Line>, i: Job, j: Job, d: nat)
    requires AllRead(lines) && IsJob(lines, i) && IsJob(lines, j) && j.steps <= d < j.end && i.end <= d
    ensures i.end <= j.start
  {
    hide WellRead;
    KeyIsNotBlank(lines, j);
    assert i.end < |lines|;
    if i.start <= j.start < i.end {
      NoDeeperLine(lines, j, i.end);
    } else if j.start < i.start {
      StepsKeyOf(lines, j, i.steps);
    }
  }

  lemma {:induction false} NoDeeperLine(lines: seq<Line>, j: Job, k: nat)
    requires IsJob(lines, j) && j.start < k < |lines| && !lines[k].shape.Blank()
    requires lines[k].Indent() <= lines[j.start].Indent()
    ensures j.end <= k
  {
  }

  lemma {:induction false} StepsKeyOf(lines: seq<Line>, j: Job, k: nat)
    requires IsJob(lines, j) && j.start < k < j.end && OpensSteps(lines[k])
    ensures k == j.steps
  {
  }

  lemma {:induction false} SameJob(lines: seq<Line>, i: Job, j: Job, d: nat)
    requires IsJob(lines, i) && IsJob(lines, j) && i.steps <= d < i.end && j.steps <= d < j.end
    ensures i == j
  {
    JobLocated(lines, i, d);
    JobLocated(lines, j, d);
    assert OpensSteps(lines[i.steps]);
  }

  /** No block opened before the end of a job reaches that line, if none reaches a step of the job. */
  lemma {:induction false} JobEndAligned(lines: seq<Line>, j: Job, f: nat)
    requires IsJob(lines, j) && j.Holds(f) && Aligned(Shapes(lines), f)
    ensures Aligned(Shapes(lines), j.end)
  {
    var t := Shapes(lines);
    forall k: nat | k < j.end
      ensures !Covers(t, k, j.end)
    {
      if Covers(t, k, j.end) {
        if k < f {
          CoverPrefix(t, k, j.end, f);
        }
      }
    }
  }

  /** A step of a job ends with it. */
  lemma {:induction false} StepInJob(lines: seq<Line>, j: Job, s: Step)
    requires IsJob(lines, j) && j.Holds(s.start) && StepAt(lines, s.start) == Some(s)
    ensures s.end <= j.end && lines[j.start].Indent() < s.indent
  {
    assert lines[s.start].shape.Dash();
    assert forall y | s.start < y < s.end :: !lines[y].shape.Ends(s.indent);
  }

  // ---------------------------------------------------------------- texts that agree from some line on

  ghost predicate SameFrom(a: seq<Line>, i: nat, b: seq<Line>, k: nat) {
    i <= |a| && k <= |b| && a[i..] == b[k..]
  }

  lemma {:induction false} SameLines(a: seq<Line>, i: nat, b: seq<Line>, k: nat)
    requires SameFrom(a, i, b, k)
    ensures i <= |a| && k <= |b| && |b| - k == |a| - i && forall y | k <= y < |b| :: b[y] == a[y - k + i]
  {
    assert |a[i..]| == |b[k..]|;
    forall y | k <= y < |b|
      ensures b[y] == a[y - k + i]
    {
      assert b[y] == b[k..][y - k] == a[i..][y - k];
    }
  }

  lemma {:induction false} SameShapes(a: seq<Line>, i: nat, b: seq<Line>, k: nat)
    requires SameFrom(a, i, b, k)
    ensures i <= |a| && k <= |b| && Shapes(a)[i..] == Shapes(b)[k..]
  {
    SameLines(a, i, b, k);
    hide SameFrom;
  }

  lemma {:induction false} SameLater(a: seq<Line>, i: nat, b: seq<Line>, k: nat, n: nat)
    requires SameFrom(a, i, b, k) && i + n <= |a|
    ensures k + n <= |b| && SameFrom(a, i + n, b, k + n)
  {
    assert |a[i..]| == |b[k..]|;
    assert a[i + n..] == a[i..][n..] && b[k + n..] == b[k..][n..];
  }

  lemma {:induction false} SameSlice(a: seq<Line>, i: nat, b: seq<Line>, k: nat, x: nat, e: nat)
    requires SameFrom(a, i, b, k) && i <= x <= e <= |a|
    ensures e - i + k <= |b| && a[x..e] == b[x - i + k..e - i + k]
  {
    assert |a[i..]| == |b[k..]|;
    SubSlice(a, i, x, e);
    SubSlice(b, k, x - i + k, e - i + k);
  }

  lemma {:induction false} SubSlice(a: seq<Line>, i: nat, x: nat, e: nat)
    requires i <= x <= e <= |a|
    ensures a[i..][x - i..e - i] == a[x..e]
  {
  }

  lemma {:induction false} JobShifts(a: seq<Line>, i: nat, b: seq<Line>, k: nat, j: Job)
    requires SameFrom(a, i, b, k) && IsJob(a, j) && i <= j.start
    ensures IsJob(b, j.By(k - i))
  {
    SameLines(a, i, b, k);
    hide SameFrom, OpensSteps, JobKey;
    JobShift(a, b, j, k - i);
  }

  lemma {:induction false} JobShift(a: seq<Line>, b: seq<Line>, j: Job, n: int)
    requires IsJob(a, j) && 0 <= j.start + n && |b| == |a| + n && forall y | j.start + n <= y < |b| :: b[y] == a[y - n]
    ensures IsJob(b, j.By(n))
  {
    hide OpensSteps, JobKey;
  }

  lemma {:induction false} EndShifts(a: seq<Line>, i: nat, b: seq<Line>, k: nat, x: nat, step: nat)
    requires SameFrom(a, i, b, k) && i <= x <= |a|
    ensures x - i + k <= |b| && StepEnd(b, x - i + k, step) == StepEnd(a, x, step) - i + k
    decreases |a| - x
  {
    SameLines(a, i, b, k);
    hide SameFrom;
    if x < |a| && !a[x].shape.Ends(step) {
      EndShifts(a, i, b, k, x + 1, step);
    }
  }

  function StepBy(s: Step, n: int): Step
    requires 0 <= s.start + n && 0 <= s.end + n
  {
    Step(s.start + n, s.end + n, s.indent, s.lines)
  }

  lemma {:induction false} StepShifts(a: seq<Line>, i: nat, b: seq<Line>, k: nat, x: nat)
    requires SameFrom(a, i, b, k) && i <= x
    ensures StepAt(a, x).Some? <==> StepAt(b, x - i + k).Some?
    ensures StepAt(a, x).Some? ==> StepAt(b, x - i + k) == Some(StepBy(StepAt(a, x).value, k - i))
  {
    SameLines(a, i, b, k);
    hide SameFrom, Shapes;
    if x < |a| && a[x].shape.Dash() {
      EndShifts(a, i, b, k, x + 1, a[x].Indent());
      hide StepEnd;
      SameSlice(a, i, b, k, x, StepAt(a, x).value.end);
    }
  }

  lemma {:induction false} NamesShift(a: seq<Line>, i: nat, b: seq<Line>, k: nat, x: nat, end: nat)
    requires SameFrom(a, i, b, k) && i <= x && i <= end
    ensures NamesOfSteps(b, x - i + k, end - i + k) == NamesOfSteps(a, x, end)
    decreases end - x
  {
    hide StepName, StepAt;
    if x < end {
      StepShifts(a, i, b, k, x);
      var s := StepAt(a, x);
      NamesShift(a, i, b, k, if s.None? then x + 1 else s.value.end, end);
    }
  }

  lemma {:induction false} StepNamedNext(lines: seq<Line>, x: nat, end: nat, name: string)
    ensures var r, s := StepNamed(lines, x, end, name), StepAt(lines, x);
            r == if end <= x then None
                 else if s.None? then StepNamed(lines, x + 1, end, name)
                 else if NormalizedName(s.value.lines) == Some(name) then s
                     else StepNamed(lines, s.value.end, end, name)
  {
    hide NormalizedName, StepAt;
  }

  predicate StepMoved(r: Option<Step>, s: Option<Step>, n: int) {
    if r.None? then s.None?
        else s.Some? && 0 <= r.value.start + n && 0 <= r.value.end + n && s.value == StepBy(r.value, n)
  }

  lemma {:induction false} StepNamedShifts(a: seq<Line>, i: nat, b: seq<Line>, k: nat, x: nat, end: nat, name: string)
    requires SameFrom(a, i, b, k) && i <= x && i <= end
    ensures StepMoved(StepNamed(a, x, end, name), StepNamed(b, x - i + k, end - i + k, name), k - i)
    decreases end - x
  {
    hide NormalizedName, StepAt, SameFrom, StepNamed;
    StepNamedNext(a, x, end, name);
    StepNamedNext(b, x - i + k, end - i + k, name);
    if x < end {
      StepShifts(a, i, b, k, x);
      var s := StepAt(a, x);
      StepNamedShifts(a, i, b, k, if s.None? then x + 1 else s.value.end, end, name);
    }
  }

  function BoundsBy(j: Bounds, n: int): Bounds
    requires 0 <= j.0 + n && 0 <= j.1 + n
  {
    (j.0 + n, j.1 + n)
  }

  /** Which stretch of a job is refreshed does not depend on what stands before the job. */
  lemma {:induction false} RefreshShifts(a: seq<Line>, i: nat, b: seq<Line>, k: nat, j: Bounds)
    requires SameFrom(a, i, b, k) && i <= j.0 && i <= j.1
    ensures var r, r' := InstallRefresh(a, j), InstallRefresh(b, BoundsBy(j, k - i));
            && (r.Some? <==> r'.Some?)
            && (r.Some? ==> j.0 <= r.value.0 && j.0 <= r.value.1 && r'.value == BoundsBy(r.value, k - i))
  {
    hide NamesOfSteps, StepNamed, Outdated, INSTALL_STEP_NAME, StepAt, SameFrom;
    NamesShift(a, i, b, k, j.0, j.1);
    StepNamedShifts(a, i, b, k, j.0, j.1, INSTALL_STEP_NAME);
  }

  // ------------------------------------------------------------ the axis does not depend on what stands before the job

  predicate FoundFrom(f: Found, i: nat) {
    && (f.strategy.Some? ==> i <= f.strategy.value) && (f.matrix.Some? ==> i <= f.matrix.value)
    && (f.mode.Some? ==> i <= f.mode.value)
  }

  function PlaceBy(p: Option<nat>, i: nat, k: nat): Option<nat>
    requires p.Some? ==> i <= p.value
  {
    if p.Some? then Some(p.value - i + k) else None
  }

  function FoundBy(f: Found, i: nat, k: nat): Found
    requires FoundFrom(f, i)
  {
    Found(PlaceBy(f.strategy, i, k), PlaceBy(f.matrix, i, k), PlaceBy(f.mode, i, k))
  }

  lemma {:induction false} ScanShifts(a: seq<Line>, i: nat, b: seq<Line>, k: nat, x: nat, end: nat, job: nat, f: Found)
    requires SameFrom(a, i, b, k) && i <= x <= end <= |a| && Before(a, f, x) && FoundFrom(f, i)
    ensures end - i + k <= |b| && Before(b, FoundBy(f, i, k), x - i + k) && FoundFrom(ScanMatrix(a, x, end, job, f), i)
    ensures ScanMatrix(b, x - i + k, end - i + k, job, FoundBy(f, i, k)) == FoundBy(ScanMatrix(a, x, end, job, f), i, k)
    decreases end - x
  {
    hide SameFrom, Stops, ScanMatrix;
    BeforeShifts(a, i, b, k, x, f);
    SameLength(a, i, b, k);
    ScanStep(a, x, end, job, f);
    ScanStep(b, x - i + k, end - i + k, job, FoundBy(f, i, k));
    if x < end {
      StopsShifts(a, i, b, k, x, job, f);
      NotedShifts(a, i, b, k, x, f);
      hide Noted;
      var n := Noted(f, a[x], x);
      if !Stops(a, job, f, x) && n.mode.None? {
        ScanShifts(a, i, b, k, x + 1, end, job, n);
      }
    }
  }

  lemma {:induction false} SameLength(a: seq<Line>, i: nat, b: seq<Line>, k: nat)
    requires SameFrom(a, i, b, k)
    ensures i <= |a| && k <= |b| && |b| - k == |a| - i
  {
    SameLines(a, i, b, k);
  }

  lemma {:induction false} BeforeShifts(a: seq<Line>, i: nat, b: seq<Line>, k: nat, x: nat, f: Found)
    requires SameFrom(a, i, b, k) && i <= x && Before(a, f, x) && FoundFrom(f, i)
    ensures x - i + k <= |b| && Before(b, FoundBy(f, i, k), x - i + k)
  {
    SameLength(a, i, b, k);
    hide SameFrom;
  }

  lemma {:induction false} NotedShifts(a: seq<Line>, i: nat, b: seq<Line>, k: nat, x: nat, f: Found)
    requires SameFrom(a, i, b, k) && i <= x < |a| && FoundFrom(f, i)
    ensures x - i + k < |b| && FoundFrom(Noted(f, a[x], x), i)
    ensures Noted(FoundBy(f, i, k), b[x - i + k], x - i + k) == FoundBy(Noted(f, a[x], x), i, k)
  {
    SameLines(a, i, b, k);
    hide SameFrom;
  }

  lemma {:induction false} StopsShifts(a: seq<Line>, i: nat, b: seq<Line>, k: nat, x: nat, job: nat, f: Found)
    requires SameFrom(a, i, b, k) && i <= x < |a| && Before(a, f, x) && FoundFrom(f, i)
    ensures x - i + k < |b| && Before(b, FoundBy(f, i, k), x - i + k)
    ensures Stops(b, job, FoundBy(f, i, k), x - i + k) == Stops(a, job, f, x)
  {
    SameLines(a, i, b, k);
    hide SameFrom;
  }

  lemma {:induction false} ListedShift(a: seq<Line>, i: nat, b: seq<Line>, k: nat, x: nat, indent: nat)
    requires SameFrom(a, i, b, k) && i <= x <= |a|
    ensures x - i + k <= |b| && ListedModes(b, x - i + k, indent) == ListedModes(a, x, indent)
    decreases |a| - x
  {
    SameLines(a, i, b, k);
    hide SameFrom;
    if x < |a| {
      ListedShift(a, i, b, k, x + 1, indent);
    }
  }

  lemma {:induction false} ModesShift(a: seq<Line>, i: nat, b: seq<Line>, k: nat, x: nat)
    requires SameFrom(a, i, b, k) && i <= x < |a|
    ensures x - i + k < |b| && Modes(b, x - i + k) == Modes(a, x)
  {
    SameLines(a, i, b, k);
    ListedShift(a, i, b, k, x + 1, a[x].Indent());
  }

  lemma {:induction false} StepsShift(a: seq<Line>, i: nat, b: seq<Line>, k: nat, x: nat, end: nat, none: nat)
    requires SameFrom(a, i, b, k) && i <= x <= end <= |a| && i <= none
    ensures end - i + k <= |b|
    ensures StepsIndex(b, x - i + k, end - i + k, none - i + k) == StepsIndex(a, x, end, none) - i + k
    decreases end - x
  {
    SameLines(a, i, b, k);
    if x < end {
      StepsShift(a, i, b, k, x + 1, end, none);
    }
  }

  function EditBy(e: Edit, n: int): Edit
    requires e.Add? ==> 0 <= e.at + n
  {
    if e.Add? then Add(e.at + n, e.lines) else e
  }

  lemma {:induction false} EditShifts(a: seq<Line>, i: nat, b: seq<Line>, k: nat, j: Bounds)
    requires SameFrom(a, i, b, k) && i <= j.0 && InText(a, j)
    ensures var e := MatrixEdit(a, j.0, j.1);
            && InText(b, BoundsBy(j, k - i)) && (e.Add? ==> i <= e.at)
            && MatrixEdit(b, j.0 - i + k, j.1 - i + k) == EditBy(e, k - i)
  {
    hide Modes, ScanMatrix, StepsIndex, StrategyLine, MatrixLine, ModeLine, Read;
    SameLines(a, i, b, k);
    var job := a[j.0].Indent();
    ScanShifts(a, i, b, k, j.0 + 1, j.1, job, NOTHING);
    assert FoundBy(NOTHING, i, k) == NOTHING;
    var f := ScanMatrix(a, j.0 + 1, j.1, job, NOTHING);
    if f.mode.Some? {
      ModesShift(a, i, b, k, f.mode.value);
    }
    StepsShift(a, i, b, k, j.0 + 1, j.1, j.0 + 1);
  }

  lemma {:induction false} InsertShifts(a: seq<Line>, i: nat, b: seq<Line>, k: nat, at: nat, ls: seq<Line>)
    requires SameFrom(a, i, b, k) && i <= at <= |a|
    ensures at - i + k <= |b| && SameFrom(InsertLines(a, at, ls), i, InsertLines(b, at - i + k, ls), k)
  {
    SameSlice(a, i, b, k, i, at);
    SameSlice(a, i, b, k, at, |a|);
    SameLength(a, i, b, k);
    var n := at - i + k;
    assert InsertLines(a, at, ls)[i..] == a[i..at] + ls + a[at..];
    assert InsertLines(b, n, ls)[k..] == b[k..n] + ls + b[n..];
  }

  /** A job and its axis are the same whatever stands before the job. */
  lemma {:induction false} AxisShifts(a: seq<Line>, i: nat, b: seq<Line>, k: nat, j: Bounds)
    requires SameFrom(a, i, b, k) && i <= j.0 && InText(a, j)
    ensures InText(b, BoundsBy(j, k - i)) && SameFrom(WithAxis(a, j), i, WithAxis(b, BoundsBy(j, k - i)), k)
    ensures |WithAxis(b, BoundsBy(j, k - i))| - |b| == |WithAxis(a, j)| - |a|
  {
    hide MatrixEdit, SameFrom, WithAxis, InsertLines;
    EditShifts(a, i, b, k, j);
    AxisForm(a, j);
    AxisForm(b, BoundsBy(j, k - i));
    SameLength(a, i, b, k);
    var e := MatrixEdit(a, j.0, j.1);
    if e.Add? {
      InsertShifts(a, i, b, k, e.at, e.lines);
    }
  }

  lemma {:induction false} AxisForm(lines: seq<Line>, j: Bounds)
    requires InText(lines, j)
    ensures var e, u := MatrixEdit(lines, j.0, j.1), WithAxis(lines, j);
            if e.Add? then u == InsertLines(lines, e.at, e.lines) && |u| == |lines| + |e.lines| else u == lines
  {
    hide MatrixEdit;
  }
}
