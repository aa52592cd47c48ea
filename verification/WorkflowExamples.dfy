/** Workflows that show where the patcher falls short: a job whose only pytest run is its install script, and an
    install script whose length changes before the support steps are inserted. */
module WorkflowExamples {
  import opened PyStrings
  import opened StepBlocks
  import opened WorkflowLines
  import opened StepNames
  import opened StepRewriter
  import opened RewrittenSteps
  import opened JobMatrix
  import opened TextPatcher
  import opened WorkflowPatcher
  import opened PlainRuns
  import opened JobLayouts
  import opened JobHeaders
  import opened JobPreparation
  import opened LaidOutRuns
  import opened SwallowedJobs
  import opened SupportNames
  import opened StepLists
  import opened PatchedWorkflows
  import opened PatchResults
  import opened StepExamples

  // ---------------------------------------------------------------- a job with its axis

  const JOB_KEY := "a:"
  const STEPS_KEY := "steps:"

  function Header(): seq<Line> { [Read(0, JOB_KEY), StrategyLine(2), MatrixLine(4), ModeLine(6), Read(2, STEPS_KEY)] }

  /** The text is one job, with its axis, whose steps are four columns deep or more. */
  ghost predicate OneJob(t: seq<Line>) {
    && 5 <= |t| && t[0].shape == Shape(0, Other, false) && EndsWith(t[0].text, ":")
    && t[1].shape == Shape(2, StrategyKey, false) && t[2].shape == Shape(4, MatrixKey, false)
    && t[3].shape == Shape(6, ModeKey, false) && t[3].text == MODE_LINE && t[4].shape == Shape(2, StepsKey, false)
    && forall k | 5 <= k < |t| :: 4 <= t[k].Indent() && !t[k].shape.Blank() && !OpensSteps(t[k])
  }

  function AllOf(t: seq<Line>): Bounds { (0, |t|) }

  lemma {:induction false} OneJobIsJob(t: seq<Line>)
    requires OneJob(t)
    ensures 5 <= |t| && IsJob(t, Job(0, 4, |t|)) && InText(t, AllOf(t)) && AllOf(t) == Job(0, 4, |t|).Bounds()
    ensures AllOf(t).0 == 0 && AllOf(t).1 == |t|
  {
    hide EndsWith;
  }

  lemma {:induction false} OneJobHolds(t: seq<Line>, d: nat)
    requires OneJob(t) && 4 < d < |t|
    ensures JobOf(t, d) == Some(AllOf(t))
  {
    hide *;
    OneJobIsJob(t);
    JobForm(t, Job(0, 4, |t|));
    JobLocated(t, Job(0, 4, |t|), d);
  }

  lemma {:induction false} OneJobScan(t: seq<Line>, end: nat)
    requires OneJob(t) && 4 <= end <= |t|
    ensures ScanHeader(t, 0, end) == Found(Some(1), Some(2), Some(3)) && t[3].text == MODE_LINE
  {
    hide EndsWith, ScanMatrix;
    ScanStep(t, 1, end, 0, NOTHING);
    ScanStep(t, 2, end, 0, Found(Some(1), None, None));
    ScanStep(t, 3, end, 0, Found(Some(1), Some(2), None));
  }

  lemma {:induction false} OneJobHasAxis(t: seq<Line>)
    requires OneJob(t) && InText(t, AllOf(t))
    ensures MatrixEdit(t, 0, |t|) == Existing && WithAxis(t, AllOf(t)) == t
  {
    OneJobScan(t, |t|);
    ModeRead(t, 3);
    hide EndsWith, Modes, ScanMatrix, MATRIX_MODES, MODE_LINE;
  }

  lemma {:induction false} ModeRead(t: seq<Line>, k: nat)
    requires k < |t| && t[k].text == MODE_LINE
    ensures Modes(t, k) == MATRIX_MODES
  {
    hide MATRIX_MODES, MODE_LINE, InlineModes, ListedModes;
    ModeLineModes(t[k].text);
    ModeLineIsInline(t[k].text);
  }

  /** No scan meets a step before line five. */
  lemma {:induction false} HeaderPassed(t: seq<Line>)
    requires OneJob(t)
    ensures FirstStep(t, 0) == FirstStep(t, 5) && StepAt(t, 0).None?
    ensures NamesOfSteps(t, 0, |t|) == NamesOfSteps(t, 5, |t|)
    ensures StepNamed(t, 0, |t|, INSTALL_STEP_NAME) == StepNamed(t, 5, |t|, INSTALL_STEP_NAME)
  {
    PassedLine(t, 0);
    PassedLine(t, 1);
    PassedLine(t, 2);
    PassedLine(t, 3);
    PassedLine(t, 4);
    hide *;
  }

  lemma {:induction false} PassedLine(t: seq<Line>, i: nat)
    requires i < |t| && !t[i].shape.Dash()
    ensures FirstStep(t, i) == FirstStep(t, i + 1) && StepAt(t, i).None?
    ensures NamesOfSteps(t, i, |t|) == NamesOfSteps(t, i + 1, |t|)
    ensures StepNamed(t, i, |t|, INSTALL_STEP_NAME) == StepNamed(t, i + 1, |t|, INSTALL_STEP_NAME)
  {
    hide StepEnd, INSTALL_STEP_NAME, Cold, NormalizedName;
  }

  /** Lines `x..y` are a step. */
  lemma {:induction false} StepThere(t: seq<Line>, x: nat, y: nat, indent: nat)
    requires x < y <= |t| && t[x].shape.Dash() && t[x].Indent() == indent
    requires (forall k | x < k < y :: !t[k].shape.Ends(indent)) && (y < |t| ==> t[y].shape.Ends(indent))
    ensures StepAt(t, x) == Some(Step(x, y, indent, t[x..y]))
  {
    hide StepAt;
    PutForm(t, x, y);
    StepPut(t, x, y, t[x..y], t, indent);
  }

  /** What the scans do at a step that does not run pytest. */
  lemma {:induction false} StepPassed(t: seq<Line>, s: Step, name: string)
    requires StepAt(t, s.start) == Some(s) && StepName(s.lines) == Some(name) && name != "" && PlainName(name)
    ensures NamesOfSteps(t, s.start, |t|) == {name} + NamesOfSteps(t, s.end, |t|)
    ensures StepNamed(t, s.start, |t|, INSTALL_STEP_NAME)
            == if name == INSTALL_STEP_NAME then Some(s) else StepNamed(t, s.end, |t|, INSTALL_STEP_NAME)
    ensures Cold(Shapes(s.lines)) ==> FirstStep(t, s.start) == FirstStep(t, s.end)
    ensures !Cold(Shapes(s.lines)) ==> FirstStep(t, s.start) == Some(s)
  {
    StepForm(t, s);
    PlainStrips(name);
    hide StepAt, INSTALL_STEP_NAME, Cold, StepName, PlainName;
  }

  lemma {:induction false} ScansOver(t: seq<Line>)
    ensures FirstStep(t, |t|) == None && NamesOfSteps(t, |t|, |t|) == {}
    ensures StepNamed(t, |t|, |t|, INSTALL_STEP_NAME) == None
  {
    hide StepAt, INSTALL_STEP_NAME, Cold;
  }

  lemma {:induction false} NoPytestIsCold(t: Text)
    requires forall k | 0 <= k < |t| :: !t[k].pytest
    ensures Cold(t)
  {
  }

  lemma {:induction false} NameFirst(b: seq<Line>, name: string)
    requires b != [] && b[0].text == NameText(name) && PlainName(name)
    ensures StepName(b) == Some(name)
  {
    hide PlainName, NameValue;
    NameLineNames(name);
  }

  /** A job with its axis goes straight to its support steps. */
  lemma {:induction false} OneJobRound(t: seq<Line>, newline: nat, step: Step)
    requires OneJob(t) && FirstStep(t, 0) == Some(step) && 4 < step.start < |t|
    ensures var p := SupportPhase(t, step, AllOf(t));
            && Prepared(StartOf(t), step, AllOf(t), newline) == p
            && JobOf(t, step.start) == Some(AllOf(t))
            && (p.Stopped? ==> RoundOf(StartOf(t), newline) == Broken(p.error))
  {
    hide *;
    OneJobIsJob(t);
    OneJobHasAxis(t);
    OneJobHolds(t, step.start);
    FoundIsThere(t, 0);
    StartHasNoKeys(t, AllOf(t), newline);
    NewIsPrepared(StartOf(t), step, AllOf(t), newline);
    AxisPhaseForm(t, AllOf(t));
    EditForm(t);
    LocatedForm(t, Some(step));
    RoundForm(StartOf(t), newline, step, AllOf(t), Prepared(StartOf(t), step, AllOf(t), newline));
  }

  lemma {:induction false} EditForm(t: seq<Line>)
    requires OneJob(t) && MatrixEdit(t, 0, |t|) == Existing
    ensures !MatrixEdit(t, AllOf(t).0, AllOf(t).1).Conflict?
  {
    hide MatrixEdit;
  }

  lemma {:induction false} StartHasNoKeys(t: seq<Line>, job: Bounds, newline: nat)
    ensures var s := StartOf(t);
            && s.lines == t && s.search == 0 && s.KeyOf(job, newline) !in s.axisDone
               && s.KeyOf(job, newline) !in s.supportDone
  {
    hide OffsetAt;
  }

  // ---------------------------------------------------------------- a job that is swallowed

  ghost predicate SwallowedText(t: seq<Line>) {
    && OneJob(t) && |t| == 8 && t[5] == NameLine(4, SELECT_STEP_NAME) && t[6] == NameLine(4, INSTALL_STEP_NAME)
    && !t[5].shape.pytest && !t[6].shape.pytest && t[7].shape == Shape(6, RunKey, true) && t[7].text != RUN_HEADER
  }

  function SwallowingStep(t: seq<Line>): Step
    requires |t| == 8
  {
    Step(6, 8, 4, t[6..8])
  }

  lemma {:induction false} SwallowedSteps(t: seq<Line>)
    requires SwallowedText(t)
    ensures StepAt(t, 5) == Some(Step(5, 6, 4, t[5..6])) && StepAt(t, 6) == Some(SwallowingStep(t))
    ensures StepName(t[5..6]) == Some(SELECT_STEP_NAME) && StepName(t[6..8]) == Some(INSTALL_STEP_NAME)
    ensures Cold(Shapes(t[5..6])) && !Cold(Shapes(t[6..8]))
    ensures Outdated(t[6..8]) == Some((1, 2))
  {
    SupportNamesArePlain();
    hide RUN_HEADER, INSTALL_STEP_NAME, SELECT_STEP_NAME, PlainName, Read;
    NameLineForm(4, SELECT_STEP_NAME);
    NameLineForm(4, INSTALL_STEP_NAME);
    StepThere(t, 5, 6, 4);
    StepThere(t, 6, 8, 4);
    NameFirst(t[5..6], SELECT_STEP_NAME);
    NameFirst(t[6..8], INSTALL_STEP_NAME);
    NoPytestIsCold(Shapes(t[5..6]));
    RunIsHot(t[6..8]);
    OneRunIsOutdated(t[6..8]);
  }

  lemma {:induction false} NameLineForm(n: nat, name: string)
    ensures NameLine(n, name).text == NameText(name) && NameLine(n, name).shape.kind == Kind.Dash
  {
    hide RunsPytest;
    assert NameText(name)[0] == '-';
  }

  lemma {:induction false} RunIsHot(b: seq<Line>)
    requires |b| == 2 && b[1].shape.Run() && b[1].shape.pytest
    ensures !Cold(Shapes(b))
  {
    assert InBody(Shapes(b), 1, 1);
    assert Hot(Shapes(b), 1);
  }

  lemma {:induction false} OneRunIsOutdated(b: seq<Line>)
    requires |b| == 2 && !b[0].shape.Run() && b[1].shape.Run() && b[1].text != RUN_HEADER
    ensures Outdated(b) == Some((1, 2))
  {
    hide RUN_HEADER, HoldsScript;
    assert FirstRunKey(b, 1) == 1;
  }

  lemma {:induction false} SwallowedScan(t: seq<Line>)
    requires SwallowedText(t)
    ensures FirstStep(t, 0) == Some(SwallowingStep(t)) && StepAt(t, 0).None?
    ensures NamesOfSteps(t, 0, 8) == {SELECT_STEP_NAME, INSTALL_STEP_NAME}
    ensures StepNamed(t, 0, 8, INSTALL_STEP_NAME) == Some(SwallowingStep(t))
  {
    SwallowedSteps(t);
    SupportNamesArePlain();
    NamesAreNotEmpty();
    hide INSTALL_STEP_NAME, SELECT_STEP_NAME, PlainName, StepAt, OneJob, StepName, Cold, Outdated, NameLine;
    HeaderPassed(t);
    StepPassed(t, Step(5, 6, 4, t[5..6]), SELECT_STEP_NAME);
    StepPassed(t, SwallowingStep(t), INSTALL_STEP_NAME);
    ScansOver(t);
    assert NamesOfSteps(t, 0, 8) == {SELECT_STEP_NAME} + ({INSTALL_STEP_NAME} + {});
  }

  lemma {:induction false} SwallowedSupport(t: seq<Line>)
    requires SwallowedText(t)
    ensures var s, w := SwallowingStep(t), t[..7] + InstallRun(6);
            && InstallRefresh(t, AllOf(t)) == Some((7, 8)) && Lacking(t, AllOf(t), 4) == []
            && WithSupport(t, AllOf(t), s) == w && NewStart(t, AllOf(t), s) == 0
  {
    hide *;
    SwallowedIsOne(t);
    SwallowedScan(t);
    SwallowedSteps(t);
    OneJobIsJob(t);
    var s, w := SwallowingStep(t), t[..7] + InstallRun(6);
    RefreshIs(t, AllOf(t), s, 1, 2);
    NamedLacksNothing(t, AllOf(t), 4);
    RefreshForm(t, 7, 8);
    TailNothing(t, w);
    WithSupportForm(t, AllOf(t), s);
  }

  lemma {:induction false} TailNothing(t: seq<Line>, w: seq<Line>)
    requires |t| == 8 && w == t[..7] + InstallRun(6)
    ensures w == t[..7] + InstallRun(6) + t[8..]
  {
    hide InstallRun;
  }

  lemma {:induction false} RefreshIs(t: seq<Line>, job: Bounds, s: Step, a: nat, b: nat)
    requires INSTALL_STEP_NAME in NamesOfSteps(t, job.0, job.1)
    requires StepNamed(t, job.0, job.1, INSTALL_STEP_NAME) == Some(s)
    requires Outdated(s.lines) == Some((a, b))
    ensures InstallRefresh(t, job) == Some((s.start + a, s.start + b))
  {
    hide INSTALL_STEP_NAME, NamesOfSteps, StepNamed, Outdated;
  }

  lemma {:induction false} NothingHot(t: seq<Line>)
    requires forall k | 0 <= k < |t| :: t[k].shape.Run() ==>
             k == |t| - 5 && forall x | k <= x < |t| :: !t[x].shape.pytest
    ensures FirstStep(t, 0).None?
  {
    hide FirstStep;
    FirstStepIs(t, 0);
  }

  lemma {:induction false} SwallowedLeavesNothing(t: seq<Line>)
    requires SwallowedText(t)
    ensures var w := t[..7] + InstallRun(6); FirstStep(w, 0).None? && StepAt(w, 0).None?
  {
    InstallRunIsRead(6);
    NameLineForm(4, SELECT_STEP_NAME);
    NameLineForm(4, INSTALL_STEP_NAME);
    hide FirstStep, NameLine, InstallRun, INSTALL_STEP_NAME, SELECT_STEP_NAME, EndsWith, RUN_HEADER;
    var w := t[..7] + InstallRun(6);
    NothingHot(w);
    assert w[0] == t[0];
  }

  lemma {:induction false} SwallowedRound(t: seq<Line>, newline: nat, rounds: nat)
    requires SwallowedText(t)
    ensures Run(t, newline, rounds).outcome == Failed(AnchorNotFound)
  {
    hide *;
    SwallowedIsOne(t);
    SwallowedScan(t);
    SwallowedSupport(t);
    SwallowedLeavesNothing(t);
    var s, w := SwallowingStep(t), t[..7] + InstallRun(6);
    OneJobIsJob(t);
    OneJobRound(t, newline, s);
    SupportPhaseForm(t, s, AllOf(t));
    FoundForm(w, 0, 0);
    NoneLocated(w);
    RunStarts(t, newline, rounds);
    RoundsOut(StartOf(t), newline, rounds);
  }

  lemma {:induction false} SwallowedIsOne(t: seq<Line>)
    requires SwallowedText(t)
    ensures OneJob(t) && |t| == 8 && SwallowingStep(t) == Step(6, 8, 4, t[6..8]) && t[7].Indent() == 6
  {
    hide OneJob, RUN_HEADER, INSTALL_STEP_NAME, SELECT_STEP_NAME, NameLine;
  }

  ghost predicate SwallowedLines(t: seq<Line>) {
    && OneJob(t) && |t| == 8 && t[5].shape == Shape(4, Kind.Dash, false) && t[6].shape == Shape(4, Kind.Dash, false)
    && t[7].shape == Shape(6, RunKey, true)
  }

  lemma {:induction false} SwallowedIsLaidOut(t: seq<Line>)
    requires SwallowedText(t) && SwallowedLines(t)
    ensures LaidOutJob(t, Job(0, 4, 8)) && Swallowed(t, Job(0, 4, 8)) && InText(t, Job(0, 4, 8).Bounds())
  {
    hide *;
    SwallowedIsOne(t);
    SwallowedScan(t);
    SwallowedSupport(t);
    OneJobIsJob(t);
    OneJobHasAxis(t);
    OneJobDecides(t);
    OnlyRunIsExposed(t);
    LaidOutSwallowed(t);
  }

  lemma {:induction false} OneJobDecides(t: seq<Line>)
    requires OneJob(t) && IsJob(t, Job(0, 4, |t|))
    ensures HeaderDecides(t, Job(0, 4, |t|))
  {
    hide *;
    OneJobIsJob(t);
    OneJobScan(t, |t|);
    OneJobScan(t, 4);
    ModeLineIsInline(t[3].text);
    DecidesIf(t);
  }

  lemma {:induction false} DecidesIf(t: seq<Line>)
    requires IsJob(t, Job(0, 4, |t|)) && 5 <= |t| && InText(t, AllOf(t)) && Strip(t[3].text) != "mode:"
    requires ScanHeader(t, 0, |t|) == ScanHeader(t, 0, 4) == Found(Some(1), Some(2), Some(3))
    ensures HeaderDecides(t, Job(0, 4, |t|))
  {
    hide IsJob, ScanMatrix, Strip, Modes;
  }

  lemma {:induction false} OnlyRunIsExposed(t: seq<Line>)
    requires SwallowedLines(t)
    ensures forall x: nat | ExposedFrom(Shapes(t), 0, x) :: x == 7
    ensures PlainFrom(Shapes(t), 0) && PytestThere(Shapes(t)) && Aligned(Shapes(t), 6)
  {
    hide EndsWith;
    var u := Shapes(t);
    assert Covers(u, 6, 7) && InBody(u, 7, 7);
    assert ExposedFrom(u, 0, 7);
  }

  ghost predicate PytestThere(t: Text) { HasPytestStep(t) }

  lemma {:induction false} LaidOutSwallowed(t: seq<Line>)
    requires IsJob(t, Job(0, 4, 8)) && HeaderDecides(t, Job(0, 4, 8)) && |t| == 8 && InText(t, AllOf(t))
    requires WithAxis(t, AllOf(t)) == t
    requires InstallRefresh(t, AllOf(t)) == Some((7, 8))
    requires StepNamed(t, 0, 8, INSTALL_STEP_NAME) == Some(SwallowingStep(t))
    requires forall x: nat | ExposedFrom(Shapes(t), 0, x) :: x == 7
    ensures LaidOutJob(t, Job(0, 4, 8)) && Swallowed(t, Job(0, 4, 8)) && InText(t, Job(0, 4, 8).Bounds())
  {
    hide IsJob, HeaderDecides, WithAxis, InstallRefresh, StepNamed, INSTALL_STEP_NAME, ExposedFrom;
  }

  lemma {:induction false} SupportNamesHaveNoPytest()
    ensures !RunsPytest(NameText(INSTALL_STEP_NAME)) && !RunsPytest(NameText(SELECT_STEP_NAME))
  {
    assert NoLetterY("- name: ") && NoLetterY(INSTALL_STEP_NAME) && NoLetterY(SELECT_STEP_NAME);
    hide INSTALL_STEP_NAME, SELECT_STEP_NAME;
    NoYOfBoth("- name: ", INSTALL_STEP_NAME);
    NoYOfBoth("- name: ", SELECT_STEP_NAME);
  }

  lemma {:induction false} NoYOfBoth(a: string, b: string)
    requires NoLetterY(a) && NoLetterY(b)
    ensures !RunsPytest(a + b)
  {
    hide InstallsPackages;
    assert NoLetterY(a + b);
  }

  lemma {:induction false} NameLineShape(n: nat, name: string)
    requires !RunsPytest(NameText(name))
    ensures NameLine(n, name).shape == Shape(n, Kind.Dash, false)
  {
    hide RunsPytest;
    assert NameText(name)[0] == '-';
  }

  lemma {:induction false} KeysRead()
    ensures KindOf(JOB_KEY) == Other && !RunsPytest(JOB_KEY) && KindOf(STEPS_KEY) == StepsKey && !RunsPytest(STEPS_KEY)
  {
    assert NoLetterY(JOB_KEY) && NoLetterY(STEPS_KEY);
    OtherKey(JOB_KEY, 'a');
    KeyStarts();
    assert STEPS_KEY[..6] == "steps:" && STEPS_KEY[0] == 's';
  }

  lemma {:induction false} JobKeyEnds()
    ensures EndsWith(JOB_KEY, ":")
  {
  }

  lemma {:induction false} HeaderLines(h: seq<Line>)
    requires h == [Read(0, JOB_KEY), StrategyLine(2), MatrixLine(4), ModeLine(6), Read(2, STEPS_KEY)]
    requires WellRead(Read(0, JOB_KEY)) && WellRead(Read(2, STEPS_KEY))
    ensures |h| == 5 && AllRead(h)
  {
    hide Read, WellRead, StrategyLine, MatrixLine, ModeLine, JOB_KEY, STEPS_KEY;
  }

  lemma {:induction false} HeaderForm()
    ensures |Header()| == 5 && AllRead(Header()) && Header()[0].shape == Shape(0, Other, false)
    ensures EndsWith(Header()[0].text, ":")
    ensures Header()[1] == StrategyLine(2) && Header()[2] == MatrixLine(4) && Header()[3] == ModeLine(6)
    ensures Header()[4].shape == Shape(2, StepsKey, false)
  {
    KeysRead();
    JobKeyEnds();
    ReadForm(0, JOB_KEY);
    ReadForm(2, STEPS_KEY);
    hide Read, EndsWith, KindOf, RunsPytest, JOB_KEY, STEPS_KEY, StrategyLine, MatrixLine, ModeLine;
    hide STRATEGY_KEY, MATRIX_KEY, MODE_LINE;
    HeaderLines(Header());
    hide WellRead;
  }

  lemma {:induction false} OneJobIf(t: seq<Line>)
    requires 5 < |t| && t[..5] == Header()
    requires forall k | 5 <= k < |t| :: 4 <= t[k].Indent() && !t[k].shape.Blank() && !OpensSteps(t[k])
    ensures OneJob(t)
  {
    hide Header;
    HeaderForm();
    hide EndsWith, MODE_LINE, RUN_HEADER;
    assert forall k | 0 <= k < 5 :: t[k] == t[..5][k];
  }

  /** A job with both support steps whose only pytest run is the script of its install step: the patcher replaces that
      script, finds nothing left to rewrite, and gives up. */
  lemma {:induction false} SwallowedJobFails(newline: nat, rounds: nat) returns (t: seq<Line>)
    ensures t == Header() + [NameLine(4, SELECT_STEP_NAME), NameLine(4, INSTALL_STEP_NAME), Read(6, RUN_PYTEST)]
    ensures AllRead(t) && PlainFrom(Shapes(t), 0) && HasPytestStep(Shapes(t))
    ensures LaidOutJob(t, Job(0, 4, 8)) && InText(t, Job(0, 4, 8).Bounds()) && Swallowed(t, Job(0, 4, 8))
    ensures Lacking(t, Job(0, 4, 8).Bounds(), 4) == [] && Run(t, newline, rounds).outcome == Failed(AnchorNotFound)
  {
    hide *;
    t := Header() + [NameLine(4, SELECT_STEP_NAME), NameLine(4, INSTALL_STEP_NAME), Read(6, RUN_PYTEST)];
    RunPytestRunsPytest();
    ReadForm(6, RUN_PYTEST);
    SupportNamesHaveNoPytest();
    NameLineShape(4, INSTALL_STEP_NAME);
    NameLineShape(4, SELECT_STEP_NAME);
    HeaderForm();
    RunPytestIsNoHeader();
    SwallowedIf(t);
    SwallowedSupport(t);
    SwallowedIsLaidOut(t);
    SwallowedRound(t, newline, rounds);
    OnlyRunIsExposed(t);
    SwallowedGiven(t);
  }

  lemma {:induction false} RunPytestIsNoHeader()
    ensures RUN_PYTEST != RUN_HEADER
  {
    assert |RUN_PYTEST| != |RUN_HEADER|;
  }

  lemma {:induction false} SwallowedIf(t: seq<Line>)
    requires t == Header() + [NameLine(4, SELECT_STEP_NAME), NameLine(4, INSTALL_STEP_NAME), Read(6, RUN_PYTEST)]
    requires NameLine(4, INSTALL_STEP_NAME).shape == Shape(4, Kind.Dash, false) == NameLine(4, SELECT_STEP_NAME).shape
    requires Read(6, RUN_PYTEST).shape == Shape(6, RunKey, true) && Read(6, RUN_PYTEST).text == RUN_PYTEST != RUN_HEADER
    requires |Header()| == 5
    ensures SwallowedText(t) && SwallowedLines(t)
  {
    hide Header, NameLine, Read, INSTALL_STEP_NAME, SELECT_STEP_NAME, RUN_PYTEST, RUN_HEADER, OneJob;
    assert t[..5] == Header();
    OneJobIf(t);
  }

  lemma {:induction false} SwallowedGiven(t: seq<Line>)
    requires t == Header() + [NameLine(4, SELECT_STEP_NAME), NameLine(4, INSTALL_STEP_NAME), Read(6, RUN_PYTEST)]
    requires AllRead(Header()) && WellRead(Read(6, RUN_PYTEST)) && PytestThere(Shapes(t))
    requires |t| == 8 ==> Lacking(t, AllOf(t), 4) == []
    ensures AllRead(t) && HasPytestStep(Shapes(t)) && (|t| == 8 ==> Lacking(t, Job(0, 4, 8).Bounds(), 4) == [])
  {
    hide Header, NameLine, Read, WellRead, INSTALL_STEP_NAME, SELECT_STEP_NAME, RUN_PYTEST, HasPytestStep, Lacking;
  }

  // ---------------------------------------------------------------- a stale place

  ghost predicate StaleText(t: seq<Line>) {
    && OneJob(t) && |t| == 9 && t[5] == NameLine(4, INSTALL_STEP_NAME) && t[5].shape == Shape(4, Kind.Dash, false)
    && t[6].shape == Shape(6, RunKey, false) && t[6].text != RUN_HEADER
    && t[7].shape == Shape(4, Kind.Dash, false) && t[7].text == PLAIN_NAME && t[8].shape == Shape(6, RunKey, true)
  }

  function StaleStep(t: seq<Line>): Step
    requires |t| == 9
  {
    Step(7, 9, 4, t[7..9])
  }

  lemma {:induction false} StaleIsOne(t: seq<Line>)
    requires StaleText(t)
    ensures OneJob(t) && |t| == 9 && StaleStep(t) == Step(7, 9, 4, t[7..9]) && t[6].Indent() == 6
    ensures t[5] == NameLine(4, INSTALL_STEP_NAME)
  {
    hide OneJob, RUN_HEADER, INSTALL_STEP_NAME, NameLine, PLAIN_NAME;
  }

  lemma {:induction false} ShortName()
    ensures PlainName("t") && PLAIN_NAME == NameText("t") && "t" != "" && "t" != SELECT_STEP_NAME
    ensures "t" != INSTALL_STEP_NAME
  {
    assert |SELECT_STEP_NAME| > 1 && |INSTALL_STEP_NAME| > 1;
  }

  lemma {:induction false} StaleSteps(t: seq<Line>)
    requires StaleText(t)
    ensures StepAt(t, 5) == Some(Step(5, 7, 4, t[5..7])) && StepAt(t, 7) == Some(StaleStep(t))
    ensures StepName(t[5..7]) == Some(INSTALL_STEP_NAME) && StepName(t[7..9]) == Some("t")
    ensures Cold(Shapes(t[5..7])) && !Cold(Shapes(t[7..9]))
    ensures Outdated(t[5..7]) == Some((1, 2))
  {
    SupportNamesArePlain();
    ShortName();
    hide RUN_HEADER, INSTALL_STEP_NAME, SELECT_STEP_NAME, PLAIN_NAME, PlainName, Read;
    NameLineForm(4, INSTALL_STEP_NAME);
    StepThere(t, 5, 7, 4);
    StepThere(t, 7, 9, 4);
    NameFirst(t[5..7], INSTALL_STEP_NAME);
    NameFirst(t[7..9], "t");
    NoPytestIsCold(Shapes(t[5..7]));
    RunIsHot(t[7..9]);
    OneRunIsOutdated(t[5..7]);
  }

  lemma {:induction false} StaleScan(t: seq<Line>)
    requires StaleText(t)
    ensures FirstStep(t, 0) == Some(StaleStep(t)) && StepAt(t, 0).None?
    ensures NamesOfSteps(t, 0, 9) == {INSTALL_STEP_NAME, "t"}
    ensures StepNamed(t, 0, 9, INSTALL_STEP_NAME) == Some(Step(5, 7, 4, t[5..7]))
  {
    StaleSteps(t);
    SupportNamesArePlain();
    NamesAreNotEmpty();
    ShortName();
    hide INSTALL_STEP_NAME, SELECT_STEP_NAME, PLAIN_NAME, PlainName, StepAt, OneJob, StepName, Cold, Outdated, NameLine;
    HeaderPassed(t);
    StepPassed(t, Step(5, 7, 4, t[5..7]), INSTALL_STEP_NAME);
    StepPassed(t, StaleStep(t), "t");
    ScansOver(t);
    assert NamesOfSteps(t, 0, 9) == {INSTALL_STEP_NAME} + ({"t"} + {});
  }

  /** The text after the support steps were ensured. */
  function Strayed(t: seq<Line>): seq<Line>
    requires |t| == 9
  {
    t[..6] + [RunHeader(6)] + SelectBlock(4) + Indented(INSTALL_RUN_COMMANDS, 8) + t[7..]
  }

  lemma {:induction false} SelectLacks(names: set<string>)
    requires names == {INSTALL_STEP_NAME, "t"}
    ensures MissingSteps(names, 4) == SelectBlock(4)
  {
    ShortName();
    SupportNamesArePlain();
    hide INSTALL_STEP_NAME, SELECT_STEP_NAME, SelectBlock, InstallBlock;
    assert [] + SelectBlock(4) == SelectBlock(4);
  }

  lemma {:induction false} StrayedParts(t: seq<Line>, v: seq<Line>)
    requires |t| == 9 && v == t[..6] + InstallRun(6) + t[7..]
    ensures 7 <= |v| && InsertLines(v, 7, SelectBlock(4)) == Strayed(t)
  {
    hide RunHeader, SelectBlock, Indented, INSTALL_RUN_COMMANDS;
    var c := Indented(INSTALL_RUN_COMMANDS, 8);
    assert InstallRun(6) == [RunHeader(6)] + c;
    assert v[..7] == t[..6] + [RunHeader(6)] && v[7..] == c + t[7..];
  }

  lemma {:induction false} StaleSupport(t: seq<Line>)
    requires StaleText(t)
    ensures var s := StaleStep(t);
            && Misplaces(t, AllOf(t), s) && InstallRefresh(t, AllOf(t)) == Some((6, 7))
            && WithSupport(t, AllOf(t), s) == Strayed(t) && NewStart(t, AllOf(t), s) == 0
  {
    hide *;
    StaleIsOne(t);
    StaleScan(t);
    StaleSteps(t);
    OneJobIsJob(t);
    var s := StaleStep(t);
    RefreshIs(t, AllOf(t), Step(5, 7, 4, t[5..7]), 1, 2);
    RefreshForm(t, 6, 7);
    StrayedParts(t, AfterRefresh(t, Some((6, 7))));
    WithSupportForm(t, AllOf(t), s);
    SelectLacks(NamesOfSteps(t, 0, 9));
    StaleMisplaces(t);
  }

  lemma {:induction false} StaleMisplaces(t: seq<Line>)
    requires |t| == 9 && InstallRefresh(t, AllOf(t)) == Some((6, 7)) && Lacking(t, AllOf(t), 4) == SelectBlock(4)
    ensures Misplaces(t, AllOf(t), StaleStep(t))
  {
    hide InstallRefresh, Lacking, SelectBlock;
    assert |INSTALL_RUN_COMMANDS| == 4;
  }

  /** A line that may stand below the steps key of the job. */
  ghost predicate BelowSteps(l: Line) {
    4 <= l.Indent() && !l.shape.Blank() && !OpensSteps(l)
  }

  lemma {:induction false} OneJobKeeps(t: seq<Line>, w: seq<Line>)
    requires OneJob(t) && 5 <= |w| && w[..5] == t[..5] && forall k | 5 <= k < |w| :: BelowSteps(w[k])
    ensures OneJob(w)
  {
    hide EndsWith, MODE_LINE;
    assert forall k | 0 <= k < 5 :: w[k] == w[..5][k] == t[..5][k] == t[k];
  }

  lemma {:induction false} StrayedSlices(t: seq<Line>, a: seq<Line>, b: seq<Line>, w: seq<Line>)
    requires |t| == 9 && |a| == 7 && |b| == 4 && w == t[..6] + [RunHeader(6)] + a + b + t[7..]
    ensures |w| == 20 && w[..5] == t[..5] && w[5] == t[5] && w[6] == RunHeader(6) && w[18] == t[7] && w[19] == t[8]
    ensures w[5..7] == [t[5], RunHeader(6)] && w[7..18] == a + b && w[18..20] == t[7..9]
    ensures (forall k | 7 <= k < 14 :: w[k] == a[k - 7]) && (forall k | 14 <= k < 18 :: w[k] == b[k - 14])
  {
    hide RunHeader;
  }

  lemma {:induction false} ScriptLines(a: seq<Line>)
    requires ScriptStep(a, 4)
    ensures a[0].shape.Dash() && a[0].Indent() == 4 && BelowSteps(a[0])
    ensures forall k | 0 < k < |a| :: BelowSteps(a[k]) && 4 < a[k].Indent() && !a[k].shape.pytest
  {
    hide WellRead;
  }

  lemma {:induction false} CommandLines(commands: seq<string>)
    requires QuietScript(commands)
    ensures forall k | 0 <= k < |commands| ::
              var l := Indented(commands, 8)[k]; BelowSteps(l) && 4 < l.Indent() && !l.shape.pytest
  {
    IndentedScript(commands, 8);
    hide WellRead, QuietScript;
  }

  lemma {:induction false} StrayedLines(t: seq<Line>)
    requires StaleText(t)
    ensures var w, c := Strayed(t), Indented(INSTALL_RUN_COMMANDS, 8);
            && |w| == 20 && w[5..7] == [t[5], RunHeader(6)] && w[7..18] == SelectBlock(4) + c && w[18..20] == t[7..9]
            && w[..5] == t[..5] && w[5] == t[5] && w[6] == RunHeader(6) && w[18] == t[7] && w[19] == t[8]
            && w[7].shape.Dash() && w[7].Indent() == 4 && BelowSteps(w[7])
            && forall k | 7 < k < 18 :: BelowSteps(w[k]) && 4 < w[k].Indent() && !w[k].shape.pytest
  {
    StaleIsOne(t);
    SelectBlockIsScript(4);
    ScriptLines(SelectBlock(4));
    InstallScriptIsQuiet();
    CommandLines(INSTALL_RUN_COMMANDS);
    assert |INSTALL_RUN_COMMANDS| == 4;
    hide INSTALL_RUN_COMMANDS, StaleText, OneJob, ScriptStep, QuietScript, SelectBlock, Indented, RunHeader, BelowSteps;
    StrayedSlices(t, SelectBlock(4), Indented(INSTALL_RUN_COMMANDS, 8), Strayed(t));
  }

  lemma {:induction false} DashLine(t: seq<Line>)
    requires StaleText(t)
    ensures t[5].shape.Dash() && t[5].Indent() == 4 && !t[5].shape.pytest && BelowSteps(t[5])
    ensures t[7].shape.Dash() && t[7].Indent() == 4 && BelowSteps(t[7])
    ensures t[8].shape == Shape(6, RunKey, true) && BelowSteps(t[8])
  {
    hide OneJob, RUN_HEADER, INSTALL_STEP_NAME, NameLine, PLAIN_NAME;
  }

  lemma {:induction false} StrayedJob(t: seq<Line>)
    requires StaleText(t)
    ensures OneJob(Strayed(t)) && |Strayed(t)| == 20
  {
    hide *;
    StaleIsOne(t);
    DashLine(t);
    StrayedLines(t);
    HeaderIsDeep();
    OneJobKeeps(t, Strayed(t));
  }

  lemma {:induction false} ColdStepThere(w: seq<Line>, x: nat, y: nat)
    requires x < y < |w| && w[x].shape.Dash() && w[x].Indent() == 4 && !w[x].shape.pytest
    requires w[y].shape.Dash() && w[y].Indent() == 4 && forall k | x < k < y :: 4 < w[k].Indent() && !w[k].shape.pytest
    ensures StepAt(w, x) == Some(Step(x, y, 4, w[x..y])) && Cold(Shapes(w[x..y]))
  {
    StepThere(w, x, y, 4);
    NoPytestIsCold(Shapes(w[x..y]));
  }

  lemma {:induction false} SelectIsQuiet()
    ensures SelectBlock(4)[0].shape == Shape(4, Kind.Dash, false)
  {
    SupportNamesHaveNoPytest();
    NameLineShape(4, SELECT_STEP_NAME);
    hide NameLine, SELECT_STEP_NAME;
  }

  lemma {:induction false} StrayedInstall(t: seq<Line>)
    requires StaleText(t)
    ensures |Strayed(t)| == 20 && Cold(Shapes(Strayed(t)[5..7]))
    ensures StepAt(Strayed(t), 5) == Some(Step(5, 7, 4, [NameLine(4, INSTALL_STEP_NAME), RunHeader(6)]))
  {
    hide *;
    StaleIsOne(t);
    DashLine(t);
    StrayedLines(t);
    HeaderIsDeep();
    ColdStepThere(Strayed(t), 5, 7);
  }

  lemma {:induction false} HeaderIsDeep()
    ensures RunHeader(6).Indent() == 6 && !RunHeader(6).shape.pytest && BelowSteps(RunHeader(6))
  {
    hide RunHeader;
  }

  lemma {:induction false} StrayedSelect(t: seq<Line>)
    requires StaleText(t)
    ensures |Strayed(t)| == 20 && Cold(Shapes(Strayed(t)[7..18]))
    ensures StepAt(Strayed(t), 7) == Some(Step(7, 18, 4, SelectBlock(4) + Indented(INSTALL_RUN_COMMANDS, 8)))
  {
    hide *;
    DashLine(t);
    StaleIsOne(t);
    StrayedLines(t);
    SelectIsQuiet();
    SelectFirst(t);
    ColdStepThere(Strayed(t), 7, 18);
  }

  lemma {:induction false} StrayedLast(t: seq<Line>)
    requires StaleText(t)
    ensures |Strayed(t)| == 20 && StepAt(Strayed(t), 18) == Some(Step(18, 20, 4, t[7..9])) && !Cold(Shapes(t[7..9]))
  {
    hide *;
    DashLine(t);
    StaleIsOne(t);
    StaleSteps(t);
    StrayedLines(t);
    DeepIsNoEnd(t[8], 4);
    StepThere(Strayed(t), 18, 20, 4);
  }

  lemma {:induction false} DeepIsNoEnd(l: Line, n: nat)
    requires l.shape == Shape(6, RunKey, true) && n < 6
    ensures !l.shape.Ends(n)
  {
  }

  lemma {:induction false} SelectFirst(t: seq<Line>)
    requires StaleText(t)
    ensures |Strayed(t)| == 20 && Strayed(t)[7] == SelectBlock(4)[0]
  {
    StaleIsOne(t);
    SelectBlockIsScript(4);
    hide StaleText, ScriptStep, SelectBlock, Indented, RunHeader;
    assert |INSTALL_RUN_COMMANDS| == 4;
    hide INSTALL_RUN_COMMANDS;
    StrayedSlices(t, SelectBlock(4), Indented(INSTALL_RUN_COMMANDS, 8), Strayed(t));
  }

  lemma {:induction false} StrayedScan(t: seq<Line>)
    requires StaleText(t)
    ensures var w := Strayed(t); StepAt(w, 0).None? && FirstStep(w, 0) == Some(Step(18, 20, 4, t[7..9]))
  {
    hide *;
    StaleIsOne(t);
    StrayedJob(t);
    StrayedInstall(t);
    StrayedSelect(t);
    StrayedLast(t);
    StrayedLines(t);
    var w := Strayed(t);
    HeaderPassed(w);
    ScanOn(w, 5);
    ScanOn(w, 7);
    ScanOn(w, 18);
  }

  lemma {:induction false} StaleRound(t: seq<Line>, newline: nat) returns (n: State, log: seq<Change>)
    requires StaleText(t) && AllRead(t)
    ensures var w, s := Strayed(t), Step(18, 20, 4, t[7..9]);
            && StepAt(w, 18) == Some(s) && RoundOf(StartOf(t), newline) == Done(n, log) && n.lines == Rewriting(w, s)
            && n.search == 18 + |RewriteLines(s.lines, 4)|
  {
    hide *;
    StaleIsOne(t);
    StaleScan(t);
    StaleSupport(t);
    StrayedJob(t);
    StrayedLast(t);
    StrayedScan(t);
    OneJobIsJob(t);
    var s, w, r := StaleStep(t), Strayed(t), Step(18, 20, 4, t[7..9]);
    OneJobRound(t, newline, s);
    SupportPhaseForm(t, s, AllOf(t));
    FoundForm(w, 0, 0);
    OneJobHolds(w, 18);
    LocatedForm(w, Some(r));
    StaleDone(t, newline, s, AllOf(t), Reached(w, r, AllOf(w)));
    n, log := RoundOf(StartOf(t), newline).next, RoundOf(StartOf(t), newline).log;
  }

  lemma {:induction false} StaleDone(t: seq<Line>, newline: nat, step: Step, job: Bounds, p: Phase)
    requires FirstStep(t, 0) == Some(step) && JobOf(t, step.start) == Some(job) && InText(t, job)
    requires p == Prepared(StartOf(t), step, job, newline) && p.Reached?
    requires StepAt(p.lines, p.step.start) == Some(p.step)
    ensures var r := RoundOf(StartOf(t), newline);
            && r.Done? && p.step.start < p.step.end <= |p.lines| && r.next.lines == Rewriting(p.lines, p.step)
            && r.next.search == p.step.start + |RewriteLines(p.step.lines, p.step.indent)|
  {
    hide *;
    StartHasNoKeys(t, job, newline);
    RoundForm(StartOf(t), newline, step, job, p);
  }

  lemma {:induction false} AppendRead(a: seq<Line>, b: seq<Line>)
    requires AllRead(a) && AllRead(b)
    ensures AllRead(a + b)
  {
    hide WellRead;
  }

  lemma {:induction false} PartRead(t: seq<Line>, i: nat, j: nat)
    requires AllRead(t) && i <= j <= |t|
    ensures AllRead(t[i..j])
  {
    hide WellRead;
  }

  lemma {:induction false} ScriptRead()
    ensures AllRead([RunHeader(6)]) && AllRead(SelectBlock(4)) && AllRead(Indented(INSTALL_RUN_COMMANDS, 8))
  {
    SelectBlockIsScript(4);
    InstallScriptIsQuiet();
    IndentedScript(INSTALL_RUN_COMMANDS, 8);
    hide RunHeader, Indented, SelectBlock, INSTALL_RUN_COMMANDS, WellRead, QuietScript;
  }

  lemma {:induction false} StrayedIsRead(t: seq<Line>)
    requires StaleText(t) && AllRead(t)
    ensures AllRead(Strayed(t))
  {
    hide *;
    StaleIsOne(t);
    ScriptRead();
    var a, b, c, d, e := t[..6], [RunHeader(6)], SelectBlock(4), Indented(INSTALL_RUN_COMMANDS, 8), t[7..];
    PartRead(t, 0, 6);
    PartRead(t, 7, 9);
    SlicesOfNine(t);
    AppendRead(a, b);
    AppendRead(a + b, c);
    AppendRead(a + b + c, d);
    AppendRead(a + b + c + d, e);
    StrayedForm(t);
  }

  lemma {:induction false} SlicesOfNine(t: seq<Line>)
    requires |t| == 9
    ensures t[0..6] == t[..6] && t[7..9] == t[7..]
  {
  }

  lemma {:induction false} StrayedForm(t: seq<Line>)
    requires |t| == 9
    ensures Strayed(t) == t[..6] + [RunHeader(6)] + SelectBlock(4) + Indented(INSTALL_RUN_COMMANDS, 8) + t[7..]
  {
    hide RunHeader, SelectBlock, Indented, INSTALL_RUN_COMMANDS;
  }

  lemma {:induction false} NothingBehindEnd(lines: seq<Line>, newline: nat, rounds: nat, s: State)
    requires s.lines == lines && |lines| <= s.search
    ensures Rounds(s, newline, rounds) == Result(Patched(lines), [])
  {
    hide *;
    ScanOn(lines, s.search);
    IdleIsNone(s, newline);
    RoundsOut(s, newline, rounds);
  }

  lemma {:induction false} StaleRun(t: seq<Line>, newline: nat, rounds: nat) returns (lines: seq<Line>)
    requires StaleText(t) && AllRead(t) && 0 < rounds
    ensures Run(t, newline, rounds).outcome == Patched(lines)
    ensures StepAt(lines, 5) == Some(Step(5, 7, 4, [NameLine(4, INSTALL_STEP_NAME), RunHeader(6)]))
    ensures StepAt(lines, 7) == Some(Step(7, 18, 4, SelectBlock(4) + Indented(INSTALL_RUN_COMMANDS, 8)))
  {
    hide *;
    StaleIsOne(t);
    StaleScan(t);
    StrayedJob(t);
    StrayedIsRead(t);
    StrayedInstall(t);
    StrayedSelect(t);
    StrayedLast(t);
    var w, s := Strayed(t), Step(18, 20, 4, t[7..9]);
    var n, log := StaleRound(t, newline);
    lines := n.lines;
    RunStarts(t, newline, rounds);
    RoundsOver(StartOf(t), newline, rounds, n, log);
    RewritingForm(w, s);
    NothingBehindEnd(lines, newline, rounds - 1, n);
    RewriteReplaces(w, s);
    StepBefore(w, lines, 18, 20, |RewriteLines(s.lines, 4)|, 5);
    StepBefore(w, lines, 18, 20, |RewriteLines(s.lines, 4)|, 7);
  }

  const RUN_MAKE := "run: make"

  lemma {:induction false} RunMakeIsQuiet()
    ensures KindOf(RUN_MAKE) == RunKey && !RunsPytest(RUN_MAKE) && RUN_MAKE != RUN_HEADER
  {
    assert NoLetterY(RUN_MAKE) && RUN_MAKE[..4] == "run:" && |RUN_MAKE| != |RUN_HEADER|;
  }

  lemma {:induction false} PlainNameIsQuiet()
    ensures !RunsPytest(PLAIN_NAME)
  {
    assert NoLetterY(PLAIN_NAME);
  }

  /** An install script of one line before the pytest step, in a job without a select step: the support step is
      inserted where the pytest step was, behind the run key of the new install script, and takes the script over. */
  lemma {:induction false} StaleJobStrays(newline: nat, rounds: nat) returns (t: seq<Line>, lines: seq<Line>)
    requires 0 < rounds
    ensures t == Header() + [NameLine(4, INSTALL_STEP_NAME), Read(6, RUN_MAKE), Read(4, PLAIN_NAME),
            Read(6, RUN_PYTEST)]
    ensures AllRead(t) && |t| == 9 && FirstStep(t, 0) == Some(StaleStep(t)) && Misplaces(t, AllOf(t), StaleStep(t))
    ensures Run(t, newline, rounds).outcome == Patched(lines)
    ensures StepAt(lines, 5) == Some(Step(5, 7, 4, [NameLine(4, INSTALL_STEP_NAME), RunHeader(6)]))
    ensures StepAt(lines, 7) == Some(Step(7, 18, 4, SelectBlock(4) + Indented(INSTALL_RUN_COMMANDS, 8)))
  {
    hide *;
    t := Header() + [NameLine(4, INSTALL_STEP_NAME), Read(6, RUN_MAKE), Read(4, PLAIN_NAME), Read(6, RUN_PYTEST)];
    RunPytestRunsPytest();
    RunMakeIsQuiet();
    PlainNameIsNamed();
    PlainNameIsQuiet();
    ReadForm(6, RUN_PYTEST);
    ReadForm(6, RUN_MAKE);
    ReadForm(4, PLAIN_NAME);
    SupportNamesHaveNoPytest();
    NameLineShape(4, INSTALL_STEP_NAME);
    HeaderForm();
    StaleIf(t);
    StaleIsOne(t);
    StaleScan(t);
    StaleSupport(t);
    lines := StaleRun(t, newline, rounds);
  }

  lemma {:induction false} StaleIf(t: seq<Line>)
    requires t == Header() + [NameLine(4, INSTALL_STEP_NAME), Read(6, RUN_MAKE), Read(4, PLAIN_NAME),
             Read(6, RUN_PYTEST)]
    requires NameLine(4, INSTALL_STEP_NAME).shape == Shape(4, Kind.Dash, false)
    requires Read(6, RUN_PYTEST).shape == Shape(6, RunKey, true) && WellRead(Read(6, RUN_PYTEST))
    requires WellRead(Read(6, RUN_MAKE))
    requires Read(6, RUN_MAKE).shape == Shape(6, RunKey, false) && Read(6, RUN_MAKE).text == RUN_MAKE != RUN_HEADER
    requires Read(4, PLAIN_NAME).shape == Shape(4, Kind.Dash, false) && Read(4, PLAIN_NAME).text == PLAIN_NAME
    requires WellRead(Read(4, PLAIN_NAME))
    requires |Header()| == 5 && AllRead(Header())
    ensures StaleText(t) && AllRead(t)
  {
    hide Header, NameLine, Read, INSTALL_STEP_NAME, RUN_PYTEST, RUN_MAKE, PLAIN_NAME, RUN_HEADER, OneJob, WellRead;
    assert t[..5] == Header();
    OneJobIf(t);
  }

  // ---------------------------------------------------------------- a job in whose way nothing stands

  ghost predicate SimpleText(t: seq<Line>) {
    && OneJob(t) && |t| == 7 && t[5].shape == Shape(4, Kind.Dash, false) && t[5].text == PLAIN_NAME
    && t[6].shape == Shape(6, RunKey, true)
  }

  lemma {:induction false} SimpleIsOne(t: seq<Line>)
    requires SimpleText(t)
    ensures OneJob(t) && |t| == 7 && t[5].shape == Shape(4, Kind.Dash, false) && t[6].shape == Shape(6, RunKey, true)
  {
    hide OneJob, PLAIN_NAME;
  }

  lemma {:induction false} SimpleScan(t: seq<Line>)
    requires SimpleText(t)
    ensures FirstStep(t, 0) == Some(Step(5, 7, 4, t[5..7])) && NamesOfSteps(t, 0, 7) == {"t"}
    ensures StepAt(t, 5) == Some(Step(5, 7, 4, t[5..7])) && !Cold(Shapes(t[5..7]))
  {
    ShortName();
    hide PLAIN_NAME, PlainName, OneJob, INSTALL_STEP_NAME, SELECT_STEP_NAME, StepName;
    StepThere(t, 5, 7, 4);
    NameFirst(t[5..7], "t");
    RunIsHot(t[5..7]);
    hide StepAt, Cold;
    HeaderPassed(t);
    StepPassed(t, Step(5, 7, 4, t[5..7]), "t");
    ScansOver(t);
    assert NamesOfSteps(t, 0, 7) == {"t"} + {};
  }

  lemma {:induction false} NothingRefreshed(t: seq<Line>)
    requires SimpleText(t)
    ensures InstallRefresh(t, AllOf(t)).None?
  {
    SimpleIsOne(t);
    SimpleScan(t);
    ShortName();
    NoInstallName(t);
  }

  lemma {:induction false} NoInstallName(t: seq<Line>)
    requires INSTALL_STEP_NAME !in NamesOfSteps(t, AllOf(t).0, AllOf(t).1)
    ensures InstallRefresh(t, AllOf(t)).None?
  {
    hide INSTALL_STEP_NAME, NamesOfSteps, StepNamed, Outdated;
  }

  lemma {:induction false} OnlyDash(t: seq<Line>, d: nat)
    requires SimpleText(t) && PytestStep(t, d)
    ensures d == 5
  {
    SimpleIsOne(t);
    PytestStepForm(t, d);
    hide PytestStep, Cold, Aligned, PLAIN_NAME, EndsWith;
    StepForm(t, StepAt(t, d).value);
    hide StepAt;
  }

  lemma {:induction false} SimpleJobLaidOut(t: seq<Line>)
    requires SimpleText(t)
    ensures LaidOutJob(t, Job(0, 4, 7)) && PytestStep(t, 5) && LaidOut(t)
  {
    hide *;
    SimpleIsOne(t);
    OneJobIsJob(t);
    OneJobHasAxis(t);
    OneJobDecides(t);
    NothingRefreshed(t);
    SimpleScan(t);
    LaidOutPlainly(t);
    FirstDashAligned(t);
    PytestStepIf(t, 5);
    InJobForm(Job(0, 4, 7), 5);
    OnlyOneStep(t);
  }

  lemma {:induction false} OnlyOneStep(t: seq<Line>)
    requires SimpleText(t) && LaidOutJob(t, Job(0, 4, 7)) && Job(0, 4, 7).Holds(5)
    ensures LaidOut(t)
  {
    hide SimpleText, LaidOutJob, PytestStep;
    forall d: nat | PytestStep(t, d)
      ensures exists j: Job :: LaidOutJob(t, j) && j.Holds(d)
    {
      OnlyDash(t, d);
    }
  }

  lemma {:induction false} LaidOutPlainly(t: seq<Line>)
    requires |t| == 7 && IsJob(t, Job(0, 4, 7)) && HeaderDecides(t, Job(0, 4, 7)) && InText(t, AllOf(t))
    requires WithAxis(t, AllOf(t)) == t && InstallRefresh(t, AllOf(t)).None?
    ensures LaidOutJob(t, Job(0, 4, 7)) && InText(t, Job(0, 4, 7).Bounds())
    ensures Axed(t, Job(0, 4, 7)) == t && AxedJob(t, Job(0, 4, 7)) == Job(0, 4, 7)
    ensures Job(0, 4, 7).Bounds() == AllOf(t)
  {
    hide IsJob, HeaderDecides, WithAxis, InstallRefresh, StepNamed, INSTALL_STEP_NAME;
  }

  lemma {:induction false} FirstDashAligned(t: seq<Line>)
    requires SimpleText(t)
    ensures Aligned(Shapes(t), 5)
  {
    hide EndsWith, PLAIN_NAME;
  }

  lemma {:induction false} OnlyJob(t: seq<Line>, a: Job, d: nat)
    requires SimpleText(t) && FirstOfJob(t, a, d)
    ensures a == Job(0, 4, 7) && d == 5
  {
    hide *;
    SimpleJobLaidOut(t);
    FirstOfJobForm(t, a, d);
    LaidOutForm(t, a);
    LaidOutForm(t, Job(0, 4, 7));
    OnlyDash(t, d);
    SameJob(t, a, Job(0, 4, 7), 5);
  }

  lemma {:induction false} NoTroubleHere(t: seq<Line>, s: Step)
    requires |t| == 7 && InText(t, Job(0, 4, 7).Bounds()) && Job(0, 4, 7).Bounds() == AllOf(t)
    requires Axed(t, Job(0, 4, 7)) == t && AxedJob(t, Job(0, 4, 7)) == Job(0, 4, 7)
    requires MatrixEdit(t, 0, 7) == Existing && InstallRefresh(t, AllOf(t)).None?
    ensures !MatrixEdit(t, 0, 7).Conflict? && !Stale(t, Job(0, 4, 7), s) && !Swallowed(t, Job(0, 4, 7))
  {
    hide MatrixEdit, InstallRefresh, Axed, AxedJob, AxedStep, Lacking, StepNamed, INSTALL_STEP_NAME, ExposedFrom;
  }

  lemma {:induction false} SimpleIsUntroubled(t: seq<Line>)
    requires SimpleText(t)
    ensures Untroubled(t) && InstallsQuiet(t)
  {
    SimpleParts(t);
    hide *;
    forall x: Trouble
      ensures !MeetsFrom(t, 0, x)
    {
      if MeetsFrom(t, 0, x) {
        var a, d := TroubleAt(t, 0, x);
        MeetsIsFirst(t, a, d, x);
        OnlyJob(t, a, d);
        NothingMet(t, x);
      }
    }
    UntroubledIf(t);
    QuietIf(t);
  }

  lemma {:induction false} UntroubledIf(t: seq<Line>)
    requires forall x: Trouble :: !MeetsFrom(t, 0, x)
    ensures Untroubled(t)
  {
    hide MeetsFrom;
  }

  lemma {:induction false} SimpleParts(t: seq<Line>)
    requires SimpleText(t)
    ensures LaidOutJob(t, Job(0, 4, 7)) && |t| == 7 && InText(t, Job(0, 4, 7).Bounds())
    ensures Job(0, 4, 7).Bounds() == AllOf(t)
    ensures Axed(t, Job(0, 4, 7)) == t && AxedJob(t, Job(0, 4, 7)) == Job(0, 4, 7)
    ensures MatrixEdit(t, 0, 7) == Existing && InstallRefresh(t, AllOf(t)).None?
  {
    hide *;
    SimpleIsOne(t);
    OneJobIsJob(t);
    OneJobHasAxis(t);
    OneJobDecides(t);
    NothingRefreshed(t);
    LaidOutPlainly(t);
  }

  lemma {:induction false} NothingMet(t: seq<Line>, x: Trouble)
    requires SimpleText(t)
    ensures !Meets(t, Job(0, 4, 7), 5, x)
  {
    SimpleParts(t);
    NoTroubleHere(t, OriginStep(t, 5));
    hide FirstOfJob, MatrixEdit, Stale, Swallowed, InstallRefresh, LaidOutJob, OriginStep;
  }

  lemma {:induction false} QuietIf(t: seq<Line>)
    requires SimpleText(t)
    ensures InstallsQuiet(t)
  {
    SimpleParts(t);
    hide FirstOfJob, Axed, AxedJob, SimpleText, MatrixEdit, StepAt, Cold;
    forall x: nat
      ensures !Renews(t, x)
    {
      if Renews(t, x) {
        var a: Job, d: nat :| FirstOfJob(t, a, d) && InText(t, a.Bounds()) && RenewsIn(t, a, x);
        OnlyJob(t, a, d);
        RenewsInForm(t, a, x);
      }
    }
  }

  lemma {:induction false} FewHots(t: Text, f: nat)
    requires f <= |t|
    ensures HotsFrom(t, f) <= |t| - f
    decreases |t| - f
  {
    hide Hot;
    if f < |t| {
      FewHots(t, f + 1);
    }
  }

  lemma {:induction false} SimpleStepLingersNot(t: seq<Line>)
    requires SimpleText(t)
    ensures PytestSteps(t, 0) == [t[5..7]] && !Lingers(t[5..7])
  {
    hide *;
    SimpleScan(t);
    SimpleIsOne(t);
    StepsFound(t, 0, Step(5, 7, 4, t[5..7]));
    ScanOn(t, 7);
    NoStepsFound(t, 7);
    NameAndRun(t);
    PlainPair(t[5..7]);
  }

  lemma {:induction false} NameAndRun(t: seq<Line>)
    requires SimpleText(t)
    ensures |t| == 7 && |t[5..7]| == 2 && t[5..7][0] == t[5] && t[5..7][1] == t[6]
    ensures Named(t[5].text) && t[5].shape == Shape(4, Kind.Dash, false) && t[6].shape == Shape(6, RunKey, true)
  {
    PlainNameIsNamed();
    hide OneJob, Named, PLAIN_NAME;
  }

  lemma {:induction false} PlainPair(b: seq<Line>)
    requires |b| == 2 && Named(b[0].text) && b[0].shape == Shape(4, Kind.Dash, false)
    requires b[1].shape == Shape(6, RunKey, true)
    ensures !Lingers(b)
  {
    hide Named;
    assert forall j | 2 <= j :: !Leads(Shapes(b), j, 6);
  }

  /** A job with its axis and one plain step meets every condition of the results for laid-out workflows, and is
      patched: no pytest step is left, and both support steps are there. */
  lemma {:induction false} SimpleJobIsPatched(newline: nat, rounds: nat) returns (t: seq<Line>, lines: seq<Line>)
    requires 0 < newline && 7 <= rounds
    ensures t == Header() + [Read(4, PLAIN_NAME), Read(6, RUN_PYTEST)]
    ensures LaidOutInput(t, newline, rounds) && Untroubled(t) && InstallsQuiet(t) && HasPytestStep(Shapes(t))
    ensures Rewritable(t) == PytestSteps(t, 0) && NoneLingers(Rewritable(t))
    ensures Run(t, newline, rounds).outcome == Patched(lines) && !HasPytestStep(Shapes(lines))
  {
    hide *;
    t := Header() + [Read(4, PLAIN_NAME), Read(6, RUN_PYTEST)];
    RunPytestRunsPytest();
    PlainNameIsNamed();
    PlainNameIsQuiet();
    ReadForm(6, RUN_PYTEST);
    ReadForm(4, PLAIN_NAME);
    HeaderForm();
    SimpleIf(t);
    SimpleIsUntroubled(t);
    SimpleJobLaidOut(t);
    SimpleStepLingersNot(t);
    SimpleScan(t);
    SimpleIsOne(t);
    FirstIsThere(t);
    FewHots(Shapes(t), 0);
    InputIf(t, newline, rounds);
    NoneOfOne(t[5..7]);
    var stands;
    lines, stands := StepsArePatched(t, newline, rounds);
  }

  lemma {:induction false} NoneOfOne(b: seq<Line>)
    requires !Lingers(b)
    ensures NoneLingers([b])
  {
    hide Lingers;
  }

  lemma {:induction false} InputIf(t: seq<Line>, newline: nat, rounds: nat)
    requires AllRead(t) && LaidOut(t) && 0 < newline && HotsFrom(Shapes(t), 0) <= rounds
    ensures LaidOutInput(t, newline, rounds)
  {
    hide AllRead, LaidOut, HotsFrom;
  }

  lemma {:induction false} SimpleIf(t: seq<Line>)
    requires t == Header() + [Read(4, PLAIN_NAME), Read(6, RUN_PYTEST)]
    requires Read(6, RUN_PYTEST).shape == Shape(6, RunKey, true) && WellRead(Read(6, RUN_PYTEST))
    requires Read(4, PLAIN_NAME).shape == Shape(4, Kind.Dash, false) && Read(4, PLAIN_NAME).text == PLAIN_NAME
    requires WellRead(Read(4, PLAIN_NAME)) && |Header()| == 5 && AllRead(Header())
    ensures SimpleText(t) && AllRead(t) && |t| == 7
  {
    hide Header, Read, RUN_PYTEST, PLAIN_NAME, OneJob, WellRead;
    assert t[..5] == Header();
    OneJobIf(t);
  }
}
