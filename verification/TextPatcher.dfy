/** The line-based workflow patcher: it finds the steps that run pytest, gives their job a mode matrix and two support
    steps, and replaces what they run by the CI runner. */
module TextPatcher {
  import opened PyStrings
  import opened StepBlocks
  import opened WorkflowLines
  import opened StepNames
  import opened StepRewriter
  import opened RewrittenSteps
  import opened JobMatrix

  datatype PatchError = AnchorNotFound | MatrixConflict

  /** A step: the lines `start..end`, opened by a dash at indentation `indent`. */
  datatype Step = Step(start: nat, end: nat, indent: nat, lines: seq<Line>) {
    ghost function Block(): StepBlock { StepBlock(start, end, indent, Shapes(lines)) }
  }

  // ---------------------------------------------------------------- scanning

  /** The first line at or after `i` that ends a block at indentation `step`. */
  function StepEnd(lines: seq<Line>, i: nat, step: nat): (e: nat)
    requires i <= |lines|
    ensures i <= e <= |lines|
    ensures forall y | i <= y < e :: !lines[y].shape.Ends(step)
    ensures e < |lines| ==> lines[e].shape.Ends(step)
    decreases |lines| - i
  {
    if i == |lines| || lines[i].shape.Ends(step) then i else StepEnd(lines, i + 1, step)
  }

  function StepAt(lines: seq<Line>, i: nat): (s: Option<Step>)
    ensures s.Some? <==> i < |lines| && lines[i].shape.Dash()
    ensures s.Some? ==> s.value.start == i < s.value.end <= |lines|
    ensures s.Some? ==> s.value.lines == lines[i..s.value.end] && s.value.indent == lines[i].Indent()
    ensures s.Some? ==> IsBlock(Shapes(lines), s.value.Block())
  {
    if i < |lines| && lines[i].shape.Dash() then
      var step := lines[i].Indent();
      var e := StepEnd(lines, i + 1, step);
      var s := Step(i, e, step, lines[i..e]);
      assert Shapes(lines[i..e]) == Shapes(lines)[i..e];
      assert forall k | 0 < k < e - i :: lines[i..e][k] == lines[i + k];
      Some(s)
    else None
  }

  /** After `i` lines without a hot one: the run key whose body is still open, if any, is `key`. */
  ghost predicate Scanned(t: Text, i: nat, open: Option<nat>, key: nat) {
    && i <= |t|
    && (open.Some? ==> key < i && t[key].Run() && open.value == t[key].indent && InBody(t, key, i - 1))
    && (forall r: nat | r < i && t[r].Run() && InBody(t, r, i - 1) :: open.Some? && r == key)
    && (forall r: nat | r < i && t[r].Run() :: forall x: nat | x < i && InBody(t, r, x) :: !t[x].pytest)
  }

  predicate InOpenBody(line: Shape, open: Option<nat>) {
    !line.Run() && open.Some? && open.value < line.indent
  }

  lemma {:induction false} ScanNext(t: Text, i: nat, open: Option<nat>, key: nat)
    requires i < |t| && Scanned(t, i, open, key)
    ensures InOpenBody(t[i], open) ==> InBody(t, key, i)
    ensures forall r: nat | r < i && t[r].Run() && InBody(t, r, i) :: InOpenBody(t[i], open) && r == key
  {
    forall r: nat | r < i && t[r].Run() && InBody(t, r, i)
      ensures InOpenBody(t[i], open) && r == key
    {
      assert InBody(t, r, i - 1);
    }
  }

  /** Whether a run key of these lines, or a line of its body, runs pytest. */
  method ContainsPytest(lines: seq<Line>) returns (found: bool)
    ensures found <==> exists r: nat :: Hot(Shapes(lines), r)
  {
    ghost var t := Shapes(lines);
    var runIndent: Option<nat> := None;
    ghost var key: nat := 0;
    for i := 0 to |lines|
      invariant Scanned(t, i, runIndent, key)
    {
      var line := lines[i].shape;
      ScanNext(t, i, runIndent, key);
      if line.Run() {
        runIndent := Some(line.indent);
        key := i;
        assert InBody(t, key, i);
        if line.pytest {
          assert Hot(t, key);
          return true;
        }
      } else if runIndent.Some? && runIndent.value < line.indent {
        if line.pytest {
          assert Hot(t, key);
          return true;
        }
      } else {
        runIndent := None;
      }
    }
    assert forall r: nat :: !Hot(t, r);
    return false;
  }

  /** The first step that runs pytest, as a scan from line `i` meets it. */
  ghost function FirstStep(lines: seq<Line>, i: nat): (r: Option<Step>)
    ensures r.Some? ==> i <= r.value.start && StepAt(lines, r.value.start) == r && !Cold(Shapes(r.value.lines))
    decreases |lines| - i
  {
    if |lines| <= i then None
    else match StepAt(lines, i)
      case None => FirstStep(lines, i + 1)
      case Some(s) => if Cold(Shapes(s.lines)) then FirstStep(lines, s.end) else Some(s)
  }

  /** The scan over lines from `start`: the first step block that runs pytest. */
  method NextPytestStep(lines: seq<Line>, start: nat) returns (r: Option<Step>)
    ensures r == FirstStep(lines, start)
  {
    hide StepEnd, Hot;
    var idx := start;
    while idx < |lines|
      invariant FirstStep(lines, idx) == FirstStep(lines, start)
      decreases |lines| - idx
    {
      var step := StepAt(lines, idx);
      if step.None? {
        idx := idx + 1;
        continue;
      }
      var found := ContainsPytest(step.value.lines);
      if found {
        return step;
      }
      idx := step.value.end;
    }
    return None;
  }

  /** The scan has looked at all lines before `i`, and no block from `start` on reaches line `i`. */
  ghost predicate Passed(t: Text, start: nat, i: nat) {
    && (forall d: nat | start <= d < i <= |t| :: !Covers(t, d, i))
    && (forall k: nat | k < i :: !ExposedFrom(t, start, k))
  }

  lemma {:induction false} PassLine(t: Text, start: nat, i: nat)
    requires start <= i < |t| && Passed(t, start, i) && !t[i].Dash()
    ensures Passed(t, start, i + 1)
  {
    var j := i + 1;
    forall d: nat | start <= d < j
      ensures !Covers(t, d, j)
    {
      if Covers(t, d, j) {
        CoverPrefix(t, d, j, i);
      }
    }
    forall k: nat | k < j
      ensures !ExposedFrom(t, start, k)
    {
      assert forall d: nat | start <= d :: !Covers(t, d, i);
    }
  }

  lemma {:induction false} PassBlock(t: Text, start: nat, b: StepBlock)
    requires start <= b.start && IsBlock(t, b) && Passed(t, start, b.start)
    requires forall r: nat :: !Hot(b.lines, r)
    ensures Passed(t, start, b.end)
  {
    forall d: nat | start <= d < b.end
      ensures !Covers(t, d, b.end)
    {
      if b.start <= d {
        NestedEnds(t, b, d, b.end);
      } else if Covers(t, d, b.end) {
        CoverPrefix(t, d, b.end, b.start);
      }
    }
    forall k: nat | k < b.end
      ensures !ExposedFrom(t, start, k)
    {
      if b.start <= k {
        HotInBlock(t, b, k);
      }
    }
  }

  lemma {:induction false} AllPassed(t: Text, start: nat, i: nat)
    requires Passed(t, start, i) && |t| <= i
    ensures forall k: nat :: !ExposedFrom(t, start, k)
  {
    forall k: nat
      ensures !ExposedFrom(t, start, k)
    {
      assert |t| <= k ==> !Hot(t, k);
    }
  }

  lemma {:induction false} SearchFinds(lines: seq<Line>, start: nat, i: nat)
    requires start <= i && Passed(Shapes(lines), start, i) && (i <= |lines| || i == start)
    ensures var t, r := Shapes(lines), FirstStep(lines, i);
            && (r.Some? ==> FirstPytestBlock(t, start, r.value.Block()))
            && (r.None? ==> forall k: nat :: !ExposedFrom(t, start, k))
    decreases |lines| - i
  {
    hide StepEnd;
    var t := Shapes(lines);
    if |lines| <= i {
      AllPassed(t, start, i);
    } else {
      var s := StepAt(lines, i);
      if s.None? {
        PassLine(t, start, i);
        SearchFinds(lines, start, i + 1);
      } else if Cold(Shapes(s.value.lines)) {
        PassBlock(t, start, s.value.Block());
        SearchFinds(lines, start, s.value.end);
      }
    }
  }

  lemma {:induction false} NothingPassed(t: Text, start: nat)
    ensures Passed(t, start, start)
  {
  }

  /** The scan finds the first step block that runs pytest, and finds nothing exactly when no pytest step is exposed. */
  lemma {:induction false} FirstStepIs(lines: seq<Line>, start: nat)
    ensures var t, r := Shapes(lines), FirstStep(lines, start);
            && (r.Some? ==> FirstPytestBlock(t, start, r.value.Block()))
            && (r.None? <==> forall k: nat :: !ExposedFrom(t, start, k))
  {
    hide FirstStep, StepAt, FirstPytestBlock, ExposedFrom;
    NothingPassed(Shapes(lines), start);
    SearchFinds(lines, start, start);
    var r := FirstStep(lines, start);
    if r.Some? {
      StepIsExposed(Shapes(lines), start, r.value.Block());
    }
  }

  lemma {:induction false} StepIsExposed(t: Text, start: nat, b: StepBlock)
    requires FirstPytestBlock(t, start, b)
    ensures exists k: nat :: ExposedFrom(t, start, k)
  {
    var k: nat :| Hot(b.lines, k);
    HotInBlock(t, b, b.start + k);
    BlockCovers(t, b, b.start + k);
    assert ExposedFrom(t, start, b.start + k);
  }

  lemma {:induction false} BlockIsExposed(t: Text, b: StepBlock)
    requires IsBlock(t, b) && exists r: nat :: Hot(b.lines, r)
    ensures HasPytestStep(t)
  {
    var r: nat :| Hot(b.lines, r);
    HotInBlock(t, b, b.start + r);
    BlockCovers(t, b, b.start + r);
    assert ExposedFrom(t, 0, b.start + r);
  }

  method BlockEnd(lines: seq<Line>, idx: nat) returns (end: nat)
    requires idx < |lines| && lines[idx].shape.Dash()
    ensures idx < end <= |lines|
    ensures IsBlock(Shapes(lines), StepBlock(idx, end, lines[idx].Indent(), Shapes(lines[idx..end])))
  {
    end := idx + 1;
    while end < |lines| && !lines[end].shape.Ends(lines[idx].Indent())
      invariant idx < end <= |lines|
      invariant forall y | idx < y < end :: !lines[y].shape.Ends(lines[idx].Indent())
    {
      end := end + 1;
    }
    assert Shapes(lines[idx..end]) == Shapes(lines)[idx..end];
    assert forall k | 0 < k < end - idx :: lines[idx..end][k] == lines[idx + k];
  }

  /** The check used to select a workflow: it scans on its own, and finds a step exactly when there is one to find. */
  method TextContainsPytest(lines: seq<Line>) returns (found: bool)
    ensures found <==> HasPytestStep(Shapes(lines))
  {
    ghost var t := Shapes(lines);
    var idx := 0;
    while idx < |lines|
      invariant idx <= |lines| && Passed(t, 0, idx)
    {
      var line := lines[idx];
      if line.shape.Dash() {
        var end := BlockEnd(lines, idx);
        ghost var b := StepBlock(idx, end, line.Indent(), Shapes(lines[idx..end]));
        var hot := ContainsPytest(lines[idx..end]);
        if hot {
          BlockIsExposed(t, b);
          return true;
        }
        PassBlock(t, 0, b);
        idx := end;
      } else {
        PassLine(t, 0, idx);
        idx := idx + 1;
      }
    }
    AllPassed(t, 0, idx);
    return false;
  }

  // ---------------------------------------------------------------- the job of a step

  predicate OpensSteps(l: Line) { l.shape.kind.StepsKey? }

  predicate JobKey(l: Line, steps: nat) {
    l.Indent() < steps && EndsWith(l.text, ":") && !l.shape.Dash()
  }

  /** `job` and `end` bound the job of line `index`: its steps key is the nearest one above, its own key the nearest
      less deep key above that, and it ends before the next line that is no deeper. */
  ghost predicate JobBounds(lines: seq<Line>, index: nat, steps: nat, job: nat, end: nat) {
    && job < steps <= index < |lines| && job < end <= |lines|
    && OpensSteps(lines[steps]) && (forall k | steps < k <= index :: !OpensSteps(lines[k]))
    && JobKey(lines[job], lines[steps].Indent())
       && (forall k | job < k < steps :: !JobKey(lines[k], lines[steps].Indent()))
    && (forall k | job < k < end :: lines[k].shape.Blank() || lines[job].Indent() < lines[k].Indent())
    && (end < |lines| ==> !lines[end].shape.Blank() && lines[end].Indent() <= lines[job].Indent())
  }

  /** The bounds of the job of line `index`, if it has any. */
  ghost function JobOf(lines: seq<Line>, index: nat): (r: Option<(nat, nat)>)
    ensures r.Some? ==> exists steps: nat :: JobBounds(lines, index, steps, r.value.0, r.value.1)
    ensures r.Some? ==> r.value.0 < index < |lines| && r.value.0 < r.value.1 <= |lines|
    ensures r.None? ==> forall steps: nat, job: nat, end: nat :: !JobBounds(lines, index, steps, job, end)
  {
    if exists steps: nat, job: nat, end: nat :: JobBounds(lines, index, steps, job, end) then
      var steps: nat, job: nat, end: nat :| JobBounds(lines, index, steps, job, end);
      Some((job, end))
    else None
  }

  lemma {:induction false} JobIsUnique(lines: seq<Line>, index: nat, steps: nat, job: nat, end: nat)
    requires JobBounds(lines, index, steps, job, end)
    ensures JobOf(lines, index) == Some((job, end))
  {
    var r := JobOf(lines, index).value;
    var other: nat :| JobBounds(lines, index, other, r.0, r.1);
    assert other == steps;
    assert r.0 == job;
    assert r.1 == end;
  }

  method LocateJobBounds(lines: seq<Line>, index: nat) returns (r: Option<(nat, nat)>)
    requires index < |lines|
    ensures r == JobOf(lines, index)
  {
    var steps: nat := index;
    while steps > 0 && !OpensSteps(lines[steps])
      invariant steps <= index && forall k | steps < k <= index :: !OpensSteps(lines[k])
    {
      steps := steps - 1;
    }
    if !OpensSteps(lines[steps]) || steps == 0 {
      return None;
    }
    var job: nat := steps - 1;
    while job > 0 && !JobKey(lines[job], lines[steps].Indent())
      invariant job < steps && forall k | job < k < steps :: !JobKey(lines[k], lines[steps].Indent())
    {
      job := job - 1;
    }
    if !JobKey(lines[job], lines[steps].Indent()) {
      return None;
    }
    var end := job + 1;
    while end < |lines| && (lines[end].shape.Blank() || lines[job].Indent() < lines[end].Indent())
      invariant job < end <= |lines|
      invariant forall k | job < k < end :: lines[k].shape.Blank() || lines[job].Indent() < lines[k].Indent()
    {
      end := end + 1;
    }
    assert JobBounds(lines, index, steps, job, end);
    JobIsUnique(lines, index, steps, job, end);
    return Some((job, end));
  }

  // ---------------------------------------------------------------- step names

  /** The name of a step: the value of its first name line. */
  function StepName(lines: seq<Line>): Option<string> {
    if lines == [] then None
    else if NameValue(lines[0].text).Some? then NameValue(lines[0].text)
    else StepName(lines[1..])
  }

  function NormalizedName(lines: seq<Line>): Option<string> {
    match StepName(lines)
    case None => None
    case Some(n) => Some(Unquote(Strip(n)))
  }

  /** The names of the steps met by a scan of lines `i..end`. */
  function NamesOfSteps(lines: seq<Line>, i: nat, end: nat): set<string>
    decreases end - i
  {
    if end <= i then {}
    else match StepAt(lines, i)
      case None => NamesOfSteps(lines, i + 1, end)
      case Some(s) =>
        var rest := NamesOfSteps(lines, s.end, end);
        if StepName(s.lines).Some? && StepName(s.lines).value != "" then {StepName(s.lines).value} + rest else rest
  }

  method CollectStepNames(lines: seq<Line>, start: nat, end: nat) returns (names: set<string>)
    ensures names == NamesOfSteps(lines, start, end)
  {
    hide StepName, StepEnd;
    names := {};
    var idx := start;
    while idx < end
      invariant names + NamesOfSteps(lines, idx, end) == NamesOfSteps(lines, start, end)
      decreases end - idx
    {
      var step := StepAt(lines, idx);
      if step.None? {
        idx := idx + 1;
        continue;
      }
      var name := StepName(step.value.lines);
      if name.Some? && name.value != "" {
        names := names + {name.value};
      }
      idx := step.value.end;
    }
  }

  /** The first step with the given name that a scan of lines `i..end` meets. */
  function StepNamed(lines: seq<Line>, i: nat, end: nat, target: string): (r: Option<Step>)
    ensures r.Some? ==> i <= r.value.start < end && StepAt(lines, r.value.start) == r
    decreases end - i
  {
    if end <= i then None
    else match StepAt(lines, i)
      case None => StepNamed(lines, i + 1, end, target)
      case Some(s) => if NormalizedName(s.lines) == Some(target) then Some(s) else StepNamed(lines, s.end, end, target)
  }

  method FindStepBlock(lines: seq<Line>, start: nat, end: nat, target: string) returns (r: Option<Step>)
    ensures r == StepNamed(lines, start, end, target)
  {
    var idx := start;
    while idx < end
      invariant StepNamed(lines, idx, end, target) == StepNamed(lines, start, end, target)
      decreases end - idx
    {
      var step := StepAt(lines, idx);
      if step.None? {
        idx := idx + 1;
        continue;
      }
      if NormalizedName(step.value.lines) == Some(target) {
        return step;
      }
      idx := step.value.end;
    }
    return None;
  }

  // ---------------------------------------------------------------- the install step

  function FirstRunKey(b: seq<Line>, i: nat): (r: nat)
    requires i <= |b|
    ensures i <= r <= |b| && (r < |b| ==> b[r].shape.Run()) && forall k | i <= k < r :: !b[k].shape.Run()
    decreases |b| - i
  {
    if i == |b| || b[i].shape.Run() then i else FirstRunKey(b, i + 1)
  }

  /** The first line at or after `i` that is no deeper than `indent`. */
  function TailOf(b: seq<Line>, i: nat, indent: nat): (r: nat)
    requires i <= |b|
    ensures i <= r <= |b| && (r < |b| ==> b[r].Indent() <= indent) && forall k | i <= k < r :: indent < b[k].Indent()
    decreases |b| - i
  {
    if i == |b| || b[i].Indent() <= indent then i else TailOf(b, i + 1, indent)
  }

  predicate HoldsScript(ls: seq<Line>, commands: seq<string>) {
    |ls| == |commands| && forall k | 0 <= k < |ls| :: Strip(ls[k].text) == commands[k]
  }

  /** The run key of a step and the end of its body, when they are not the install script. */
  function Outdated(b: seq<Line>): (r: Option<(nat, nat)>)
    ensures r.Some? ==> r.value.0 < r.value.1 <= |b| && b[r.value.0].shape.Run()
    ensures r.Some? ==> forall k | r.value.0 < k < r.value.1 :: b[r.value.0].Indent() < b[k].Indent()
    ensures r.Some? && r.value.1 < |b| ==> b[r.value.1].Indent() <= b[r.value.0].Indent()
  {
    var q := FirstRunKey(b, 0);
    if q == |b| then None
    else
      var p := TailOf(b, q + 1, b[q].Indent());
      if b[q].text == RUN_HEADER && HoldsScript(b[q + 1..p], INSTALL_RUN_COMMANDS) then None else Some((q, p))
  }

  method FindOutdated(b: seq<Line>) returns (r: Option<(nat, nat)>)
    ensures r == Outdated(b)
  {
    var q := 0;
    while q < |b| && !b[q].shape.Run()
      invariant q <= |b| && FirstRunKey(b, q) == FirstRunKey(b, 0)
    {
      q := q + 1;
    }
    if q == |b| {
      return None;
    }
    var p := q + 1;
    while p < |b| && b[q].Indent() < b[p].Indent()
      invariant q < p <= |b| && TailOf(b, p, b[q].Indent()) == TailOf(b, q + 1, b[q].Indent())
    {
      p := p + 1;
    }
    if b[q].text == RUN_HEADER && HoldsScript(b[q + 1..p], INSTALL_RUN_COMMANDS) {
      return None;
    }
    return Some((q, p));
  }

  /** A run key at `indent` with the install script. */
  function InstallRun(indent: nat): (ls: seq<Line>)
    ensures |ls| == 5
  {
    [RunHeader(indent)] + Indented(INSTALL_RUN_COMMANDS, indent + 2)
  }

  /** The text with the run key at `q` and its body up to `p` replaced by the install script. */
  function Refreshing(lines: seq<Line>, q: nat, p: nat): seq<Line>
    requires q < p <= |lines|
  {
    lines[..q] + InstallRun(lines[q].Indent()) + lines[p..]
  }

  lemma {:induction false} InstallRunIsRead(indent: nat)
    ensures AllRead(InstallRun(indent)) && InstallRun(indent)[0].shape == Shape(indent, RunKey, false)
    ensures forall k | 0 < k < 5 :: InstallRun(indent)[k].shape == Shape(indent + 2, Other, false)
  {
    hide WellRead, QuietScript, RUN_HEADER;
    InstallScriptIsQuiet();
    IndentedScript(INSTALL_RUN_COMMANDS, indent + 2);
    assert |INSTALL_RUN_COMMANDS| == 4;
    hide INSTALL_RUN_COMMANDS;
    assert forall k | 0 < k < 5 :: InstallRun(indent)[k] == Indented(INSTALL_RUN_COMMANDS, indent + 2)[k - 1];
  }

  lemma {:induction false} RefreshingRefreshes(lines: seq<Line>, q: nat, p: nat)
    requires RunExtent(Shapes(lines), q, p) && AllRead(lines)
    ensures Refreshed(Shapes(lines), q, p, 4, Shapes(Refreshing(lines, q, p))) && AllRead(Refreshing(lines, q, p))
  {
    hide WellRead, InstallRun;
    InstallRunIsRead(lines[q].Indent());
  }

  lemma {:induction false} IndentedScript(commands: seq<string>, n: nat)
    requires QuietScript(commands)
    ensures forall k | 0 <= k < |commands| ::
            WellRead(Indented(commands, n)[k]) && Indented(commands, n)[k].shape == Shape(n, Other, false)
  {
    forall k | 0 <= k < |commands|
      ensures WellRead(Indented(commands, n)[k]) && Indented(commands, n)[k].shape == Shape(n, Other, false)
    {
      QuietTextReadsQuiet(commands[k]);
    }
  }

  /** The run key of an outdated step ends with its body, also in the whole text. */
  lemma {:induction false} OutdatedExtent(lines: seq<Line>, s: Step)
    requires s.start < |lines| && StepAt(lines, s.start) == Some(s) && Outdated(s.lines).Some?
    ensures var o := Outdated(s.lines).value;
            0 < o.0 && s.start + o.1 <= s.end && RunExtent(Shapes(lines), s.start + o.0, s.start + o.1)
  {
    hide Outdated, StepEnd, Shapes, INSTALL_RUN_COMMANDS;
    var q, p := s.start + Outdated(s.lines).value.0, s.start + Outdated(s.lines).value.1;
    assert forall k | 0 <= k < |s.lines| :: s.lines[k] == lines[s.start + k];
    assert lines[q] == s.lines[q - s.start];
    assert Shapes(s.lines)[q - s.start] == s.lines[q - s.start].shape;
    forall k | q < k < p
      ensures Shapes(lines)[q].indent < Shapes(lines)[k].indent
    {
      assert lines[k] == s.lines[k - s.start];
    }
    assert p < s.end ==> lines[p] == s.lines[p - s.start];
    assert p < |lines| ==> Shapes(lines)[p] == lines[p].shape;
  }

  // ---------------------------------------------------------------- the inserted support steps

  lemma {:induction false} SelectScriptIsQuiet(n: nat)
    ensures AllRead(SelectScript(n))
    ensures forall k | 0 <= k < 5 ::
              SelectScript(n)[k].shape.kind == Other && !SelectScript(n)[k].shape.pytest
              && n <= SelectScript(n)[k].Indent()
  {
    SelectIfIsQuiet(); SelectStubIsQuiet(); SelectElseIsQuiet(); SelectRedisIsQuiet(); SelectFiIsQuiet();
    hide KindOf, RunsPytest;
  }

  /** A step with a name line and a script, which does not run pytest. */
  ghost predicate ScriptStep(b: seq<Line>, indent: nat) {
    && |b| > 2 && AllRead(b)
    && b[0].shape.Dash() && b[0].Indent() == indent
    && b[1].shape == Shape(indent + 2, RunKey, false)
    && forall k | 2 <= k < |b| :: b[k].shape.kind == Other && !b[k].shape.pytest && indent + 4 <= b[k].Indent()
  }

  lemma {:induction false} InstallBlockIsScript(indent: nat)
    ensures ScriptStep(InstallBlock(indent), indent)
  {
    InstallScriptIsQuiet();
    IndentedScript(INSTALL_RUN_COMMANDS, indent + 4);
    hide Read;
    assert forall k | 2 <= k < 6 :: InstallBlock(indent)[k] == InstallBlock(indent)[2..][k - 2];
  }

  lemma {:induction false} SelectBlockIsScript(indent: nat)
    ensures ScriptStep(SelectBlock(indent), indent)
  {
    SelectScriptIsQuiet(indent + 4);
    hide Read;
    assert forall k | 2 <= k < 7 :: SelectBlock(indent)[k] == SelectBlock(indent)[2..][k - 2];
  }

  /** The support steps a job lacks, given the names of its steps. */
  function MissingSteps(names: set<string>, indent: nat): seq<Line> {
    (if INSTALL_STEP_NAME in names then [] else InstallBlock(indent))
    + (if SELECT_STEP_NAME in names then [] else SelectBlock(indent))
  }

  lemma {:induction false} ScriptStepIsCold(b: seq<Line>, indent: nat)
    requires ScriptStep(b, indent)
    ensures StepShaped(Shapes(b), indent) && Cold(Shapes(b))
  {
    hide WellRead;
    forall r: nat, x: nat | r < |b| && Shapes(b)[r].Run() && InBody(Shapes(b), r, x)
      ensures !Shapes(b)[x].pytest
    {
      assert r == 1;
    }
  }

  lemma {:induction false} TwoScriptSteps(a: seq<Line>, b: seq<Line>, indent: nat)
    requires ScriptStep(a, indent) && ScriptStep(b, indent)
    ensures StepShaped(Shapes(a + b), indent) && Cold(Shapes(a + b)) && AllRead(a + b)
  {
    hide WellRead;
    var t, n := Shapes(a + b), |a|;
    assert t[0] == a[0].shape && t[1] == a[1].shape && t[n] == b[0].shape && t[n + 1] == b[1].shape;
    assert forall k | 2 <= k < n :: t[k] == a[k].shape;
    assert forall k | n + 2 <= k < |t| :: t[k] == b[k - n].shape;
    forall r: nat, x: nat | r < |t| && t[r].Run() && InBody(t, r, x)
      ensures !t[x].pytest
    {
      assert r == 1 || r == n + 1;
      assert r == 1 ==> x < n;
    }
  }

  lemma {:induction false} MissingStepsAreSteps(names: set<string>, indent: nat)
    requires MissingSteps(names, indent) != []
    ensures StepShaped(Shapes(MissingSteps(names, indent)), indent) && Cold(Shapes(MissingSteps(names, indent)))
    ensures AllRead(MissingSteps(names, indent))
  {
    var a, b := InstallBlock(indent), SelectBlock(indent);
    InstallBlockIsScript(indent);
    SelectBlockIsScript(indent);
    hide InstallBlock, SelectBlock;
    ScriptStepIsCold(a, indent);
    ScriptStepIsCold(b, indent);
    TwoScriptSteps(a, b, indent);
    assert a + [] == a && [] + b == b;
  }
}
