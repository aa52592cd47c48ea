/** The parsed-document patcher at work on one job: its matrix, its support steps, and every step that runs pytest. */
module JobPatcher {
  import opened PyStrings
  import opened WorkflowLines
  import opened StepRewriter
  import opened StepNames
  import opened SupportSteps
  import JobMatrix

  datatype Matrix = NoMatrix | BadMatrix | Axes(mode: Option<seq<string>>)

  datatype Strategy = NoStrategy | BadStrategy | Strategy(matrix: Matrix)

  /** The matrix cannot be given the mode axis: it is malformed, or has another one. */
  predicate Conflicting(s: Strategy) {
    || s.BadStrategy?
    || (s.Strategy? && s.matrix.BadMatrix?)
    || (s.Strategy? && s.matrix.Axes? && s.matrix.mode.Some? && s.matrix.mode.value != JobMatrix.MATRIX_MODES)
  }

  predicate ScriptRunsPytest(script: string) {
    exists k | 0 <= k < |Split(script, '\n')| :: RunsPytest(Split(script, '\n')[k])
  }

  predicate StepRunsPytest(s: Step) { s.Step? && s.run.Some? && ScriptRunsPytest(s.run.value) }

  function WithSuffix(name: Option<string>): string {
    match name
    case None => NEW_NAME
    case Some(n) => if EndsWith(n, RUNNER_STEP_SUFFIX) then n else n + RUNNER_STEP_SUFFIX
  }

  function WithFlag(env: Env): (e: Env)
    ensures e.Mapping? && ENV_FLAG in e.vars && e.vars[ENV_FLAG] == "1"
  {
    if env.Mapping? then Mapping(env.vars[ENV_FLAG := "1"]) else Mapping(map[ENV_FLAG := "1"])
  }

  /** A step that runs the CI runner, whatever it ran before. */
  function Rewritten(s: Step): Step {
    if s.Step? then Step(Some(WithSuffix(s.name)), Some(RUNNER_COMMAND), WithFlag(s.env)) else s
  }

  /** The variables that a step sets. */
  function Vars(env: Env): map<string, string> { if env.Mapping? then env.vars else map[] }

  /** What becomes of a step that is rewritten: it runs the runner under its own name, marked once, or under a new one,
      and keeps every variable it had next to the flag. */
  ghost predicate RunsRunner(was: Step, now: Step)
    requires was.Step?
  {
    && now.Step? && now.run == Some(RUNNER_COMMAND) && now.env.Mapping?
    && now.env.vars.Keys == Vars(was.env).Keys + {ENV_FLAG} && now.env.vars[ENV_FLAG] == "1"
    && (forall v | v in Vars(was.env) && v != ENV_FLAG :: now.env.vars[v] == Vars(was.env)[v])
    && match was.name
       case None => now.name == Some("Run pytest suite (via CI runner)")
       case Some(n) =>
         now.name == Some(if EndsWith(n, " (via CI runner)") then n else n + " (via CI runner)")
  }

  lemma {:induction false} RewrittenRunsRunner(s: Step)
    requires s.Step?
    ensures RunsRunner(s, Rewritten(s))
  {
    hide RUNNER_COMMAND;
    assert NEW_NAME == "Run pytest suite (via CI runner)";
  }

  /** The list with the pytest steps among `a..b` rewritten. */
  function RewriteRange(steps: seq<Step>, a: nat, b: nat): (r: seq<Step>)
    ensures |r| == |steps|
    ensures forall i | 0 <= i < |r| :: r[i] == if a <= i < b && StepRunsPytest(steps[i]) then Rewritten(steps[i])
            else steps[i]
  {
    seq(|steps|, i
      requires 0 <= i < |steps| => if a <= i < b && StepRunsPytest(steps[i]) then Rewritten(steps[i]) else steps[i])
  }

  function FirstPytest(steps: seq<Step>, i: nat): (f: nat)
    requires i <= |steps|
    ensures i <= f <= |steps| && (f < |steps| ==> StepRunsPytest(steps[f]))
    ensures forall k | i <= k < f :: !StepRunsPytest(steps[k])
    decreases |steps| - i
  {
    if i == |steps| || StepRunsPytest(steps[i]) then i else FirstPytest(steps, i + 1)
  }

  /** Where the walk over the list goes on after the support steps of step `f` were ensured. */
  ghost function Resume(steps: seq<Step>, f: nat): nat
    requires f < |steps|
  {
    if InPlace(Refreshed(steps, f), f) then f else f + 2
  }

  /** The step list after one pass over a job whose first pytest step is step `f`. */
  ghost function Pass(steps: seq<Step>, f: nat): seq<Step>
    requires f < |steps|
  {
    RewriteRange(Arranged(steps, f), Resume(steps, f), |Arranged(steps, f)|)
  }

  ghost predicate HasPytest(steps: seq<Step>) { FirstPytest(steps, 0) < |steps| }

  /** The job as one pass leaves it: untouched without a pytest step. */
  ghost predicate PassedOver(before: seq<Step>, was: Strategy, steps: seq<Step>, strategy: Strategy) {
    if HasPytest(before) then
      !Conflicting(was) && steps == Pass(before, FirstPytest(before, 0))
      && strategy == Strategy(Axes(Some(JobMatrix.MATRIX_MODES)))
    else steps == before && strategy == was
  }

  datatype JobResult = NoPytestStep | JobPatched | JobFailed

  class Job {
    var steps: seq<Step>
    var strategy: Strategy

    constructor (steps: seq<Step>, strategy: Strategy)
      ensures this.steps == steps && this.strategy == strategy
    {
      this.steps, this.strategy := steps, strategy;
    }

    /** Gives the job the mode axis, unless that is impossible. */
    method EnsureMatrix() returns (ok: bool)
      modifies `strategy
      ensures ok <==> !Conflicting(old(strategy))
      ensures ok ==> strategy == Strategy(Axes(Some(JobMatrix.MATRIX_MODES)))
      ensures !ok ==> strategy == old(strategy)
    {
      if strategy.NoStrategy? {
        strategy := Strategy(NoMatrix);
      }
      if strategy.BadStrategy? {
        return false;
      }
      if strategy.matrix.NoMatrix? {
        strategy := Strategy(Axes(Some(JobMatrix.MATRIX_MODES)));
        return true;
      }
      if strategy.matrix.BadMatrix? {
        return false;
      }
      if strategy.matrix.mode.None? {
        strategy := Strategy(Axes(Some(JobMatrix.MATRIX_MODES)));
        return true;
      }
      return strategy.matrix.mode.value == JobMatrix.MATRIX_MODES;
    }

    /** Puts the install and select steps right before the target; says how many steps it put there. */
    method EnsureSupportSteps(t: nat) returns (inserted: nat)
      requires t < |steps|
      modifies `steps
      ensures steps == Arranged(old(steps), t)
      ensures inserted == if InPlace(Refreshed(old(steps), t), t) then 0 else 2
    {
      hide IsInstall, IsSelect, InPlace, Refresh, Rearranged, OrderOk, Listed;
      var installs, selects := Occurrences(steps, t);
      FirstListed(steps, t, false, installs);
      if installs != [] {
        ghost var before := steps;
        RefreshedInstall(steps[installs[0]]);
        steps := steps[installs[0] := Refresh(steps[installs[0]])];
        RefreshedIsListed(before, t, installs, selects);
      }
      TestsMeanInPlace(steps, t, installs, selects);
      var duplicates := |installs| > 1 || |selects| > 1;
      var afterRunner := exists i | i in installs + selects :: i > t;
      var missing := installs == [] || selects == [];
      if !(duplicates || afterRunner || missing || !OrderOk(steps, t)) {
        return 0;
      }
      steps := Rearrange(steps, t, installs, selects);
      return 2;
    }

    method RewriteStep(i: nat)
      requires i < |steps|
      modifies `steps
      ensures steps == old(steps)[i := Rewritten(old(steps)[i])]
      ensures if old(steps)[i].Step? then RunsRunner(old(steps)[i], steps[i]) else steps == old(steps)
    {
      if steps[i].Step? {
        RewrittenRunsRunner(steps[i]);
      }
      hide RunsRunner;
      steps := steps[i := Rewritten(steps[i])];
    }

    /** One pass over the steps of the job. */
    method Patch() returns (r: JobResult)
      modifies this
      ensures r == NoPytestStep <==> !HasPytest(old(steps))
      ensures r == JobFailed <==> HasPytest(old(steps)) && Conflicting(old(strategy))
      ensures r == JobFailed ==> steps == old(steps) && strategy == old(strategy)
      ensures r != JobFailed ==> PassedOver(old(steps), old(strategy), steps, strategy)
    {
      hide StepRunsPytest, Rewritten, Conflicting, RewriteRange, Arranged, InPlace, Refreshed;
      ghost var s, f := steps, FirstPytest(steps, 0);
      var matrixDone, supportDone := false, false;
      var idx := 0;
      while idx < |steps|
        invariant matrixDone == supportDone
        invariant !supportDone ==> idx <= |s| && FirstPytest(s, idx) == f && steps == s && strategy == old(strategy)
        invariant supportDone ==>
                    f < |s| && !Conflicting(old(strategy))
                    && strategy == Strategy(Axes(Some(JobMatrix.MATRIX_MODES)))
        invariant supportDone ==> Resume(s, f) <= idx && steps == RewriteRange(Arranged(s, f), Resume(s, f), idx)
        decreases if supportDone then 0 else 1, |steps| - idx
      {
        if StepRunsPytest(steps[idx]) {
          if !matrixDone {
            var ok := EnsureMatrix();
            if !ok {
              return JobFailed;
            }
            matrixDone := true;
          }
          if !supportDone {
            var inserted := EnsureSupportSteps(idx);
            supportDone := true;
            NothingRewritten(Arranged(s, f), Resume(s, f));
            ArrangedKeepsTarget(s, f);
            if inserted > 0 {
              idx := idx + inserted;
              continue;
            }
          }
          RangeGrows(Arranged(s, f), Resume(s, f), idx);
          RewriteStep(idx);
        } else if supportDone {
          RangeGrows(Arranged(s, f), Resume(s, f), idx);
        }
        idx := idx + 1;
      }
      if !supportDone {
        return NoPytestStep;
      }
      RangeIsAll(Arranged(s, f), Resume(s, f), idx);
      return JobPatched;
    }
  }

  // ---------------------------------------------------------------- a document

  /** The document is patched; no step of it runs pytest; or a job with a step that does cannot be given the axis. */
  datatype DocumentResult = DocumentPatched | NothingFound | Refused(job: nat)

  /** The loop over the jobs of a document: every job before a refusal has had its pass, and none behind it is
      touched. */
  method PatchDocument(jobs: seq<Job>) returns (r: DocumentResult)
    requires forall i, k | 0 <= i < k < |jobs| :: jobs[i] != jobs[k]
    modifies jobs
    ensures r == NothingFound <==> forall i | 0 <= i < |jobs| :: !HasPytest(old(jobs[i].steps))
    ensures r.Refused? <==> exists i ::
              0 <= i < |jobs| && HasPytest(old(jobs[i].steps)) && Conflicting(old(jobs[i].strategy))
    ensures r.Refused? ==>
              r.job < |jobs| && HasPytest(old(jobs[r.job].steps)) && Conflicting(old(jobs[r.job].strategy))
    ensures var n := if r.Refused? then r.job else |jobs|;
            && (forall i | 0 <= i < n && i < |jobs| ::
                  PassedOver(old(jobs[i].steps), old(jobs[i].strategy), jobs[i].steps, jobs[i].strategy))
            && (forall i | n <= i < |jobs| ::
                  jobs[i].steps == old(jobs[i].steps) && jobs[i].strategy == old(jobs[i].strategy))
  {
    hide HasPytest, Conflicting, PassedOver;
    var foundAny := false;
    for i := 0 to |jobs|
      invariant foundAny <==> exists k :: 0 <= k < i && HasPytest(old(jobs[k].steps))
      invariant forall k | 0 <= k < i ::
                  PassedOver(old(jobs[k].steps), old(jobs[k].strategy), jobs[k].steps, jobs[k].strategy)
      invariant forall k | 0 <= k < i :: HasPytest(old(jobs[k].steps)) ==> !Conflicting(old(jobs[k].strategy))
      invariant forall k | i <= k < |jobs| ::
                  jobs[k].steps == old(jobs[k].steps) && jobs[k].strategy == old(jobs[k].strategy)
    {
      var result := jobs[i].Patch();
      if result == JobFailed {
        return Refused(i);
      }
      if result == JobPatched {
        foundAny := true;
      }
    }
    return if foundAny then DocumentPatched else NothingFound;
  }

  lemma {:induction false} NothingRewritten(steps: seq<Step>, a: nat)
    ensures RewriteRange(steps, a, a) == steps
  {
  }

  lemma {:induction false} RangeGrows(steps: seq<Step>, a: nat, b: nat)
    requires a <= b < |steps|
    ensures RewriteRange(steps, a, b)[b] == steps[b]
    ensures RewriteRange(steps, a, b + 1) ==
              if StepRunsPytest(steps[b]) then RewriteRange(steps, a, b)[b := Rewritten(steps[b])]
                  else RewriteRange(steps, a, b)
  {
    hide StepRunsPytest, Rewritten;
  }

  lemma {:induction false} RangeIsAll(steps: seq<Step>, a: nat, b: nat)
    requires |steps| <= b
    ensures RewriteRange(steps, a, b) == RewriteRange(steps, a, |steps|)
  {
    hide StepRunsPytest, Rewritten;
  }

  lemma {:induction false} ArrangedKeepsTarget(steps: seq<Step>, f: nat)
    requires f < |steps|
    ensures Resume(steps, f) == f ==> f < |Arranged(steps, f)| && Arranged(steps, f)[f] == steps[f]
  {
    hide InPlace, Rearranged, Refreshed;
  }

  // ---------------------------------------------------------------- what the patcher writes does not run pytest

  predicate OneLine(s: string) { forall i: nat | i < |s| :: s[i] != '\n' }

  lemma {:induction false} OneLineScript(script: string)
    requires OneLine(script) && !RunsPytest(script)
    ensures !ScriptRunsPytest(script)
  {
    hide RunsPytest;
    SplitWord(script, '\n');
  }

  lemma {:induction false} QuietLines(lines: seq<string>)
    requires lines != [] && forall k | 0 <= k < |lines| :: OneLine(lines[k]) && !RunsPytest(lines[k])
    ensures !ScriptRunsPytest(Join(lines, '\n'))
  {
    hide RunsPytest;
    forall p | p in lines
      ensures '\n' !in p
    {
      assert OneLine(p);
    }
    SplitJoin(lines, '\n');
  }

  /** A script runs pytest exactly if one of its lines does. */
  lemma {:induction false} ScriptByLines(lines: seq<string>)
    requires lines != [] && forall k | 0 <= k < |lines| :: OneLine(lines[k])
    ensures ScriptRunsPytest(Join(lines, '\n')) <==> exists k | 0 <= k < |lines| :: RunsPytest(lines[k])
  {
    hide RunsPytest;
    forall p | p in lines
      ensures '\n' !in p
    {
      assert OneLine(p);
    }
    SplitJoin(lines, '\n');
  }

  /** Which strategies can be given the axis. */
  lemma {:induction false} ConflictingExactly(s: Strategy)
    ensures !Conflicting(s) <==>
            s == NoStrategy || s == Strategy(NoMatrix) || s == Strategy(Axes(None))
            || s == Strategy(Axes(Some(["stub", "redis"])))
  {
  }

  lemma {:induction false} OneLinePair(a: string, b: string)
    requires OneLine(a) && OneLine(b)
    ensures OneLine(a + b)
  {
  }

  lemma {:induction false} RunnerPieces()
    ensures OneLine(RUNNER_PYTHON) && OneLine(RUNNER_SCRIPT) && OneLine(RUNNER_MODE)
    ensures OneLine(RUNNER_FLUSH) && OneLine(RUNNER_PROBE) && OneLine(RUNNER_SAMPLES)
  {
  }

  lemma {:induction false} RunnerIsOneLine()
    ensures OneLine(RUNNER_COMMAND)
  {
    RunnerPieces();
    hide OneLine;
    OneLinePair(RUNNER_PROBE, RUNNER_SAMPLES);
    OneLinePair(RUNNER_FLUSH, RUNNER_PROBE + RUNNER_SAMPLES);
    OneLinePair(RUNNER_MODE, RUNNER_FLUSH + (RUNNER_PROBE + RUNNER_SAMPLES));
    OneLinePair(RUNNER_SCRIPT, RUNNER_MODE + (RUNNER_FLUSH + (RUNNER_PROBE + RUNNER_SAMPLES)));
    OneLinePair(RUNNER_PYTHON, RUNNER_TAIL);
  }

  lemma {:induction false} UpgradeIsOneLine() ensures OneLine(UPGRADE_PIP) {
    assert OneLine(RUNNER_PYTHON) && OneLine("-m pip install -U pip");
    OneLinePair(RUNNER_PYTHON, "-m pip install -U pip");
  }

  lemma {:induction false} ExtrasIsOneLine() ensures OneLine(INSTALL_EXTRAS) {
    assert OneLine(PIP_INSTALL) && OneLine("-e \".[fastapi,redis,dev]\" || true");
    OneLinePair(PIP_INSTALL, "-e \".[fastapi,redis,dev]\" || true");
  }

  lemma {:induction false} TestingIsOneLine() ensures OneLine(INSTALL_TESTING) {
    assert OneLine(PIP_INSTALL) && OneLine(TESTING_WEB) && OneLine(TESTING_TOOLS) && OneLine(TESTING_STORES);
    OneLinePair(TESTING_TOOLS, TESTING_STORES);
    OneLinePair(TESTING_WEB, TESTING_TOOLS + TESTING_STORES);
    OneLinePair(PIP_INSTALL, TESTING_PACKAGES);
  }

  lemma {:induction false} SupportIsOneLine() ensures OneLine(INSTALL_SUPPORT) {
    assert OneLine(PIP_INSTALL) && OneLine("aiohttp sqlalchemy python-dateutil");
    OneLinePair(PIP_INSTALL, "aiohttp sqlalchemy python-dateutil");
  }

  lemma {:induction false} FourOneLine(a: string, b: string, c: string, d: string)
    requires OneLine(a) && OneLine(b) && OneLine(c) && OneLine(d) && QuietScript([a, b, c, d])
    ensures !ScriptRunsPytest(Join([a, b, c, d], '\n'))
  {
    hide OneLine, RunsPytest, KindOf, ScriptRunsPytest;
    var ls := [a, b, c, d];
    assert forall k | 0 <= k < 4 :: QuietText(ls[k]);
    QuietLines(ls);
  }

  lemma {:induction false} InstallScriptRunsNoPytest()
    ensures !ScriptRunsPytest(INSTALL_RUN_SCRIPT)
  {
    assert INSTALL_RUN_COMMANDS == [UPGRADE_PIP, INSTALL_EXTRAS, INSTALL_TESTING, INSTALL_SUPPORT];
    assert INSTALL_RUN_SCRIPT == Join(INSTALL_RUN_COMMANDS, '\n');
    hide *;
    InstallScriptIsQuiet();
    UpgradeIsOneLine();
    ExtrasIsOneLine();
    TestingIsOneLine();
    SupportIsOneLine();
    FourOneLine(UPGRADE_PIP, INSTALL_EXTRAS, INSTALL_TESTING, INSTALL_SUPPORT);
  }

  lemma {:induction false} IndentedIsQuiet(s: string)
    requires !HasPytestWord(s) && OneLine(s)
    ensures !RunsPytest("  " + s) && OneLine("  " + s)
  {
    assert !HasPytestWord("  ");
    WordsSplitAtBlank("  ", s);
  }

  lemma {:induction false} StubIsQuiet() ensures !RunsPytest("  " + SELECT_STUB) && OneLine("  " + SELECT_STUB) {
    assert NoLetterY(SELECT_STUB) && OneLine(SELECT_STUB);
    IndentedIsQuiet(SELECT_STUB);
  }

  lemma {:induction false} RedisIsQuiet() ensures !RunsPytest("  " + SELECT_REDIS) && OneLine("  " + SELECT_REDIS) {
    assert OnlyLetterYAt(PYTEST_REDIS, 2);
    OneYNoPytest(PYTEST_REDIS, 2);
    assert NoLetterY(ECHO) && OneLine(ECHO) && OneLine(PYTEST_REDIS);
    WordsSplitAtBlank(ECHO, PYTEST_REDIS);
    OneLinePair(ECHO, PYTEST_REDIS);
    IndentedIsQuiet(SELECT_REDIS);
  }

  lemma {:induction false} SelectFrameIsOneLine()
    ensures OneLine(SELECT_IF) && OneLine(SELECT_ELSE) && OneLine(SELECT_FI)
  {
  }

  lemma {:induction false} FiveOneLine(a: string, b: string, c: string, d: string, e: string)
    requires OneLine(a) && OneLine(b) && OneLine(c) && OneLine(d) && OneLine(e)
    requires !RunsPytest(a) && !RunsPytest(b) && !RunsPytest(c) && !RunsPytest(d) && !RunsPytest(e)
    ensures !ScriptRunsPytest(Join([a, b, c, d, e], '\n'))
  {
    hide OneLine, RunsPytest, ScriptRunsPytest;
    QuietLines([a, b, c, d, e]);
  }

  lemma {:induction false} QuietRunsNoPytest(s: string)
    requires QuietText(s)
    ensures !RunsPytest(s)
  {
  }

  lemma {:induction false} SelectScriptRunsNoPytest()
    ensures !ScriptRunsPytest(SELECT_RUN_SCRIPT)
  {
    assert SELECT_LINES == [SELECT_IF, "  " + SELECT_STUB, SELECT_ELSE, "  " + SELECT_REDIS, SELECT_FI];
    assert SELECT_RUN_SCRIPT == Join(SELECT_LINES, '\n');
    hide *;
    SelectFrameIsOneLine();
    SelectIfIsQuiet();
    SelectElseIsQuiet();
    SelectFiIsQuiet();
    QuietRunsNoPytest(SELECT_IF);
    QuietRunsNoPytest(SELECT_ELSE);
    QuietRunsNoPytest(SELECT_FI);
    StubIsQuiet();
    RedisIsQuiet();
    FiveOneLine(SELECT_IF, "  " + SELECT_STUB, SELECT_ELSE, "  " + SELECT_REDIS, SELECT_FI);
  }

  /** No step that the patcher writes or brings up to date runs pytest. */
  lemma {:induction false} WrittenStepsAreQuiet()
    ensures !StepRunsPytest(NewInstall()) && !StepRunsPytest(NewSelect())
    ensures forall s: Step | IsInstall(s) :: !StepRunsPytest(Refresh(s))
    ensures forall s: Step :: !StepRunsPytest(Rewritten(s))
  {
    InstallScriptRunsNoPytest();
    SelectScriptRunsNoPytest();
    RunnerIsOneLine();
    RunnerCommandHasNoPytestWord();
    RunnerScriptRunsNoPytest();
    hide ScriptRunsPytest, RunsPytest, WithSuffix, WithFlag;
  }

  lemma {:induction false} RunnerScriptRunsNoPytest()
    ensures !ScriptRunsPytest(RUNNER_COMMAND)
  {
    hide *;
    RunnerIsOneLine();
    RunnerCommandIsQuiet();
    QuietRunsNoPytest(RUNNER_COMMAND);
    OneLineScript(RUNNER_COMMAND);
  }

  // ---------------------------------------------------------------- one pass, and a second one

  predicate NoneRunsPytest(steps: seq<Step>) { forall i | 0 <= i < |steps| :: !StepRunsPytest(steps[i]) }

  lemma {:induction false} SelectStays(steps: seq<Step>, t: nat)
    ensures SelectOf(Refreshed(steps, t), t) == SelectOf(steps, t)
  {
    hide IsInstall, IsSelect, NewSelect, Refreshed;
    KindsDiffer();
    RefreshedKinds(steps, t);
    assert forall k | 0 <= k < |steps| && IsSelect(steps[k]) :: Refreshed(steps, t)[k] == steps[k];
  }

  lemma {:induction false} RefreshedIsQuiet(steps: seq<Step>, f: nat)
    requires f == FirstPytest(steps, 0) < |steps|
    ensures forall i | 0 <= i < f :: !StepRunsPytest(Refreshed(steps, f)[i])
    ensures !StepRunsPytest(InstallOf(Refreshed(steps, f), f))
  {
    hide StepRunsPytest, IsInstall, IsSelect, NewInstall, Refresh, Refreshed, InstallOf, FirstPytest;
    WrittenStepsAreQuiet();
    PairKinds(steps, f);
  }

  lemma {:induction false} RearrangedPieces(steps: seq<Step>, t: nat)
    requires t < |steps|
    ensures |Rearranged(steps, t)| == |NonSupport(steps, t, 0, t)| + 3 + |NonSupport(steps, t, t + 1, |steps|)|
    ensures var a, u := NonSupport(steps, t, 0, t), Rearranged(steps, t);
            && (forall i | 0 <= i < |a| :: u[i] == a[i])
            && u[|a|] == InstallOf(steps, t) && u[|a| + 1] == SelectOf(steps, t) && u[|a| + 2] == steps[t]
    ensures var a, b, u := NonSupport(steps, t, 0, t), NonSupport(steps, t, t + 1, |steps|), Rearranged(steps, t);
            forall i | 0 <= i < |b| :: u[|a| + 3 + i] == b[i]
  {
    hide NonSupport, InstallOf, SelectOf;
  }

  lemma {:induction false} RearrangedIsQuiet(steps: seq<Step>, t: nat)
    requires t < |steps| && forall i | 0 <= i < t :: !StepRunsPytest(steps[i])
    ensures |NonSupport(steps, t, 0, t)| <= |Rearranged(steps, t)|
    ensures forall i | 0 <= i < |NonSupport(steps, t, 0, t)| :: !StepRunsPytest(Rearranged(steps, t)[i])
  {
    hide StepRunsPytest, NonSupport, Rearranged, IsInstall, IsSelect;
    RearrangedPieces(steps, t);
    NonSupportHolds(steps, t, 0, t);
    assert forall x | x in steps[..t] :: !StepRunsPytest(x);
    var a := NonSupport(steps, t, 0, t);
    forall i | 0 <= i < |a|
      ensures !StepRunsPytest(a[i])
    {
      assert a[i] in a;
    }
  }

  lemma {:induction false} BeforeTargetInPlace(steps: seq<Step>, f: nat)
    requires f == FirstPytest(steps, 0) < |steps| && InPlace(Refreshed(steps, f), f)
    ensures TargetAfter(steps, f) == f < |Arranged(steps, f)| && Arranged(steps, f)[f] == steps[f]
    ensures forall i | 0 <= i < f :: !StepRunsPytest(Arranged(steps, f)[i])
  {
    hide StepRunsPytest, FirstPytest, Refreshed, InPlace, Rearranged;
    RefreshedIsQuiet(steps, f);
  }

  /** In the list as rearranged, the steps before the target do not run pytest, except for a moved select step that
      does. */
  lemma {:induction false} BeforeTargetMoved(steps: seq<Step>, f: nat)
    requires f == FirstPytest(steps, 0) < |steps| && !InPlace(Refreshed(steps, f), f)
    ensures 2 <= TargetAfter(steps, f) < |Arranged(steps, f)|
    ensures Arranged(steps, f)[TargetAfter(steps, f)] == steps[f]
    ensures forall i | 0 <= i < TargetAfter(steps, f) - 1 :: !StepRunsPytest(Arranged(steps, f)[i])
    ensures Arranged(steps, f)[TargetAfter(steps, f) - 1] == SelectOf(steps, f)
  {
    hide StepRunsPytest, FirstPytest, NonSupport, Refreshed, InPlace, Rearranged, InstallOf, SelectOf;
    RefreshedIsQuiet(steps, f);
    SelectStays(steps, f);
    var s := Refreshed(steps, f);
    RearrangedPieces(s, f);
    RearrangedIsQuiet(s, f);
  }

  /** After one pass no step runs pytest exactly if the support steps were in place, or none of them stood before the
      first pytest step and the select step put there does not run pytest itself. */
  lemma {:induction false} OnePassSuffices(steps: seq<Step>, f: nat)
    requires f == FirstPytest(steps, 0) < |steps|
    ensures NoneRunsPytest(Pass(steps, f)) <==>
              || InPlace(Refreshed(steps, f), f)
              || (SupportBefore(steps, f, f) == {} && !StepRunsPytest(SelectOf(steps, f)))
  {
    hide StepRunsPytest, FirstPytest, IsInstall, IsSelect, Refresh, Arranged, InPlace, Rewritten, Refreshed, SelectOf;
    hide TargetAfter;
    WrittenStepsAreQuiet();
    var u, g, v := Arranged(steps, f), TargetAfter(steps, f), Pass(steps, f);
    if InPlace(Refreshed(steps, f), f) {
      BeforeTargetInPlace(steps, f);
    } else {
      BeforeTargetMoved(steps, f);
      TargetLands(steps, f);
      assert v[g] == if f + 2 <= g then Rewritten(u[g]) else u[g];
      assert v[g - 1] == u[g - 1];
    }
  }

  /** A step that runs pytest and is not a support step of the first one is rewritten, when nothing has to be taken from
      before that one. */
  lemma {:induction false} PytestStepsAreRewritten(steps: seq<Step>, f: nat, i: nat)
    requires f == FirstPytest(steps, 0) <= i < |steps| && StepRunsPytest(steps[i]) && !Support(steps, f, i)
    requires SupportBefore(steps, f, f) == {} || InPlace(Refreshed(steps, f), f)
    ensures Rewritten(steps[i]) in Pass(steps, f)
  {
    hide StepRunsPytest, FirstPytest, Rewritten, Support, NonSupport, Refreshed, Refresh, InPlace, Rearranged;
    hide SupportBefore;
    var s := Refreshed(steps, f);
    SupportStays(steps, f);
    if InPlace(s, f) {
      assert Pass(steps, f)[i] == Rewritten(steps[i]);
    } else {
      TargetLands(steps, f);
      NonSupportHolds(s, f, f + 1, |s|);
      assert f < i ==> s[i] in NonSupport(s, f, f + 1, |s|);
      RewrittenInPass(steps, f, i);
    }
  }

  lemma {:induction false} RewrittenInPass(steps: seq<Step>, f: nat, i: nat)
    requires f <= i < |steps| && StepRunsPytest(steps[i]) && Refreshed(steps, f)[i] == steps[i]
    requires !InPlace(Refreshed(steps, f), f) && |NonSupport(Refreshed(steps, f), f, 0, f)| == f
    requires f < i ==> steps[i] in NonSupport(Refreshed(steps, f), f, f + 1, |steps|)
    ensures Rewritten(steps[i]) in Pass(steps, f)
  {
    hide StepRunsPytest, Rewritten, NonSupport, Refreshed, InPlace, Rearranged, InstallOf, SelectOf, IndexIn;
    var s := Refreshed(steps, f);
    RearrangedPieces(s, f);
    var b := NonSupport(s, f, f + 1, |s|);
    var k: int := if f < i then IndexIn(b, steps[i]) else -1;
    assert Rearranged(s, f)[f + 3 + k] == steps[i];
    assert Pass(steps, f)[f + 3 + k] == Rewritten(steps[i]);
  }

  function IndexIn(ls: seq<Step>, s: Step): (k: nat)
    requires s in ls
    ensures k < |ls| && ls[k] == s
  {
    if ls[0] == s then 0 else 1 + IndexIn(ls[1..], s)
  }

  lemma {:induction false} NormalKeepsEnd(n: string)
    requires |n| >= 2 && n[|n| - 2] == 'r' && n[|n| - 1] == ')'
    ensures |Normalized(n)| >= 2 && Normalized(n)[|Normalized(n)| - 2] == 'r'
  {
    var k := LeadingSpaces(n);
    assert k <= |n| - 2;
    var l := n[k..];
    assert Rstrip(l) == l;
  }

  lemma {:induction false} EndsOfNames()
    ensures |RUNNER_STEP_SUFFIX| == 16 && RUNNER_STEP_SUFFIX[14] == 'r' && RUNNER_STEP_SUFFIX[15] == ')'
    ensures |INSTALL_STEP_NAME| == 34 && INSTALL_STEP_NAME[32] == 's'
    ensures |SELECT_STEP_NAME| == 15 && SELECT_STEP_NAME[13] == 'n'
  {
  }

  /** A rewritten step never counts as a support step. */
  lemma {:induction false} RewrittenIsNoSupport(s: Step)
    ensures !IsInstall(Rewritten(s)) && !IsSelect(Rewritten(s))
  {
    EndsOfNames();
    var n := if s.Step? then WithSuffix(s.name) else RUNNER_STEP_SUFFIX;
    hide Normalized;
    assert n[|n| - 16..] == RUNNER_STEP_SUFFIX;
    assert n[|n| - 2] == n[|n| - 16..][14] && n[|n| - 1] == n[|n| - 16..][15];
    NormalKeepsEnd(n);
  }

  lemma {:induction false} FirstPytestIs(steps: seq<Step>, g: nat)
    requires g < |steps| && StepRunsPytest(steps[g]) && forall i | 0 <= i < g :: !StepRunsPytest(steps[i])
    ensures FirstPytest(steps, 0) == g
  {
    hide StepRunsPytest;
  }

  lemma {:induction false} RefreshKeepsPlace(steps: seq<Step>, t: nat)
    requires InPlace(steps, t)
    ensures InPlace(Refreshed(steps, t), t)
  {
    RefreshedKinds(steps, t);
    SupportStays(steps, t);
    hide IsInstall, IsSelect, Refreshed, Refresh, Support;
  }

  lemma {:induction false} RewritingKeepsPlace(u: seq<Step>, a: nat, g: nat)
    requires InPlace(u, g) && g < a
    ensures InPlace(RewriteRange(u, a, |u|), g)
  {
    hide IsInstall, IsSelect, Rewritten, StepRunsPytest;
    var v := RewriteRange(u, a, |u|);
    forall i: nat | Support(v, g, i)
      ensures Support(u, g, i)
    {
      RewrittenIsNoSupport(u[i]);
    }
  }

  lemma {:induction false} ArrangedIsInPlace(steps: seq<Step>, f: nat)
    requires f < |steps|
    ensures TargetAfter(steps, f) < |Arranged(steps, f)| && InPlace(Arranged(steps, f), TargetAfter(steps, f))
  {
    ArrangedOnce(steps, f);
    hide InPlace, Refreshed, Rearranged, TargetAfter;
    var u, g := Arranged(steps, f), TargetAfter(steps, f);
    assert InPlace(Refreshed(u, g), g) && Arranged(u, g) == Refreshed(u, g);
  }

  lemma {:induction false} PassSkipsTarget(steps: seq<Step>, f: nat)
    requires f == FirstPytest(steps, 0) < |steps| && !StepRunsPytest(SelectOf(steps, f))
    requires !NoneRunsPytest(Pass(steps, f))
    ensures !InPlace(Refreshed(steps, f), f) && TargetAfter(steps, f) < f + 2
    ensures Pass(steps, f) == RewriteRange(Arranged(steps, f), f + 2, |Arranged(steps, f)|)
  {
    hide StepRunsPytest, InPlace, Refreshed, Arranged, Support, SelectOf, FirstPytest, TargetAfter, RewriteRange;
    OnePassSuffices(steps, f);
    TargetLands(steps, f);
    assert SupportBefore(steps, f, f) != {};
  }

  lemma {:induction false} SkippedTargetIsFirst(steps: seq<Step>, f: nat)
    requires f == FirstPytest(steps, 0) < |steps| && !StepRunsPytest(SelectOf(steps, f))
    requires !NoneRunsPytest(Pass(steps, f))
    ensures TargetAfter(steps, f) == FirstPytest(Pass(steps, f), 0) < |Pass(steps, f)|
  {
    hide *;
    PassSkipsTarget(steps, f);
    BeforeTargetMoved(steps, f);
    FirstPytestIs(Pass(steps, f), TargetAfter(steps, f));
  }

  lemma {:induction false} PassKeepsPlaces(steps: seq<Step>, f: nat)
    requires f == FirstPytest(steps, 0) < |steps| && !StepRunsPytest(SelectOf(steps, f))
    requires !NoneRunsPytest(Pass(steps, f))
    ensures var v, g := Pass(steps, f), TargetAfter(steps, f);
            g < |v| && InPlace(Refreshed(v, g), g)
  {
    hide *;
    PassSkipsTarget(steps, f);
    ArrangedIsInPlace(steps, f);
    var u, g := Arranged(steps, f), TargetAfter(steps, f);
    RewritingKeepsPlace(u, f + 2, g);
    RefreshKeepsPlace(Pass(steps, f), g);
  }

  /** When the select step does not run pytest, a pass that skipped the runner put everything in place for the next
      one. */
  lemma {:induction false} SecondPassSuffices(steps: seq<Step>, f: nat)
    requires f == FirstPytest(steps, 0) < |steps| && !StepRunsPytest(SelectOf(steps, f))
    ensures var v := Pass(steps, f);
            var g := FirstPytest(v, 0);
            NoneRunsPytest(v) || (g == TargetAfter(steps, f) < |v| && NoneRunsPytest(Pass(v, g)))
  {
    hide *;
    if !NoneRunsPytest(Pass(steps, f)) {
      SkippedTargetIsFirst(steps, f);
      PassKeepsPlaces(steps, f);
      OnePassSuffices(Pass(steps, f), TargetAfter(steps, f));
    }
  }

  // ---------------------------------------------------------------- one pass is not always enough

  const PYTEST_STEP := Step(None, Some("pytest"), NoEnv)

  lemma {:induction false} PytestStepRunsPytest(s: Step)
    requires s.Step? && s.run == Some("pytest")
    ensures StepRunsPytest(s)
  {
    var script := "pytest";
    SplitWord(script, '\n');
    assert PytestWordAt(script, 0);
    assert RunsPytest(Split(script, '\n')[0]);
  }

  lemma {:induction false} PytestStepIsNoSupport()
    ensures !IsInstall(PYTEST_STEP) && !IsSelect(PYTEST_STEP)
  {
  }

  lemma {:induction false} FirstIsSecond(steps: seq<Step>)
    requires |steps| == 2 && !StepRunsPytest(steps[0]) && StepRunsPytest(steps[1])
    ensures FirstPytest(steps, 0) == 1
  {
    FirstPytestIs(steps, 1);
  }

  lemma {:induction false} SelectStandsBefore(steps: seq<Step>)
    requires |steps| == 2 && IsSelect(steps[0])
    ensures SupportBefore(steps, 1, 1) != {} && !InPlace(Refreshed(steps, 1), 1)
  {
    hide IsInstall, IsSelect, Refreshed;
    assert 0 in SupportBefore(steps, 1, 1);
  }

  /** A select step right before the only pytest step, with no install step: the pass leaves the pytest step as it
      was. */
  lemma {:induction false} SelectBeforeTarget() returns (steps: seq<Step>)
    ensures steps == [NewSelect(), PYTEST_STEP] && FirstPytest(steps, 0) == 1 && !NoneRunsPytest(Pass(steps, 1))
  {
    SupportKinds();
    WrittenStepsAreQuiet();
    PytestStepRunsPytest(PYTEST_STEP);
    hide *;
    steps := [NewSelect(), PYTEST_STEP];
    FirstIsSecond(steps);
    SelectStandsBefore(steps);
    OnePassSuffices(steps, 1);
  }

  /** A select step after the pytest step that itself runs pytest is moved before it and left as it is. */
  lemma {:induction false} SelectRunsPytest() returns (steps: seq<Step>)
    ensures steps == [PYTEST_STEP, Step(Some(SELECT_STEP_NAME), Some("pytest"), NoEnv)]
    ensures FirstPytest(steps, 0) == 0 && SupportBefore(steps, 0, 0) == {} && !NoneRunsPytest(Pass(steps, 0))
  {
    SupportNames();
    var select := Step(Some(SELECT_STEP_NAME), Some("pytest"), NoEnv);
    steps := [PYTEST_STEP, select];
    PytestStepRunsPytest(PYTEST_STEP);
    PytestStepRunsPytest(select);
    PytestStepIsNoSupport();
    hide StepRunsPytest, Normalized, NoneRunsPytest, Pass, Refreshed, FirstPytest, NewSelect;
    FirstPytestIs(steps, 0);
    assert IsSelect(select);
    hide IsSelect;
    assert First(steps, 0, true, 0) == First(steps, 0, true, 1) == 1;
    OnePassSuffices(steps, 0);
  }
}
