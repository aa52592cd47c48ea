/** Giving a job the matrix axis `mode: [stub, redis]`. */
module JobMatrix {
  import opened PyStrings
  import opened StepBlocks
  import opened WorkflowLines

  const MATRIX_MODES := ["stub", "redis"]

  // ---------------------------------------------------------------- reading the axis

  function StripSet(s: string, chars: string): string {
    if s != "" && s[0] in chars then StripSet(s[1..], chars)
    else if s != "" && s[|s| - 1] in chars then StripSet(s[..|s| - 1], chars)
    else s
  }

  function InlineParts(parts: seq<string>): seq<string> {
    if parts == [] then []
    else if Strip(parts[0]) == "" then InlineParts(parts[1..])
    else [StripSet(Strip(parts[0]), "'\"")] + InlineParts(parts[1..])
  }

  function InlineModes(text: string): seq<string> {
    if |text| < 5 then [] else InlineParts(Split(StripSet(Strip(text[5..]), "[] "), ','))
  }

  /** The items of the list below the mode key. */
  function ListedModes(lines: seq<Line>, i: nat, indent: nat): seq<string>
    requires i <= |lines|
    decreases |lines| - i
  {
    if i == |lines| then []
    else if lines[i].shape.Blank() then ListedModes(lines, i + 1, indent)
    else if lines[i].Indent() <= indent then []
    else if "- " <= lines[i].text then
      [StripSet(Strip(lines[i].text[2..]), "'\"")] + ListedModes(lines, i + 1, indent)
    else ListedModes(lines, i + 1, indent)
  }

  function Modes(lines: seq<Line>, mode: nat): seq<string>
    requires mode < |lines|
  {
    if Strip(lines[mode].text) == "mode:" then ListedModes(lines, mode + 1, lines[mode].Indent())
    else InlineModes(lines[mode].text)
  }

  // ---------------------------------------------------------------- finding the axis

  datatype Found = Found(strategy: Option<nat>, matrix: Option<nat>, mode: Option<nat>)

  /** Everything found so far lies before line `i`, the matrix below a strategy. */
  predicate Before(lines: seq<Line>, f: Found, i: nat) {
    && i <= |lines|
    && (f.strategy.Some? ==> f.strategy.value < i)
    && (f.matrix.Some? ==> f.strategy.Some? && f.matrix.value < i)
    && f.mode.None?
  }

  predicate NoDeeper(lines: seq<Line>, l: Line, k: Option<nat>)
    requires k.Some? ==> k.value < |lines|
  {
    k.Some? && l.Indent() <= lines[k.value].Indent()
  }

  /** Whether the scan for the axis stops at line `i`, having found `f`. */
  predicate Stops(lines: seq<Line>, job: nat, f: Found, i: nat)
    requires Before(lines, f, i) && i < |lines|
  {
    && !lines[i].shape.Blank()
    && (lines[i].Indent() <= job
        || (!lines[i].shape.kind.StrategyKey?
            && (NoDeeper(lines, lines[i], f.strategy)
                || (!lines[i].shape.kind.MatrixKey? && NoDeeper(lines, lines[i], f.matrix)))))
  }

  /** What is found after line `i`, at which the scan does not stop. */
  function Noted(f: Found, l: Line, i: nat): Found {
    match l.shape.kind
    case StrategyKey => f.(strategy := Some(i))
    case MatrixKey => if f.strategy.Some? then f.(matrix := Some(i)) else f
    case ModeKey => if f.matrix.Some? then f.(mode := Some(i)) else f
    case _ => f
  }

  function ScanMatrix(lines: seq<Line>, i: nat, end: nat, job: nat, f: Found): (r: Found)
    requires i <= end <= |lines| && Before(lines, f, i)
    ensures r.strategy == f.strategy || (r.strategy.Some? && i <= r.strategy.value < end)
    ensures r.matrix == f.matrix || (r.matrix.Some? && i <= r.matrix.value < end)
    ensures r.matrix.Some? ==> r.strategy.Some?
    ensures r.mode.Some? ==> i <= r.mode.value < end && lines[r.mode.value].shape.kind.ModeKey?
    decreases end - i
  {
    if i == end || Stops(lines, job, f, i) then f
    else if Noted(f, lines[i], i).mode.Some? then Noted(f, lines[i], i)
    else ScanMatrix(lines, i + 1, end, job, Noted(f, lines[i], i))
  }

  const NOTHING := Found(None, None, None)

  /** The first steps key of the job, or the line after its key. */
  function StepsIndex(lines: seq<Line>, i: nat, end: nat, none: nat): (r: nat)
    requires i <= end <= |lines|
    ensures r == none || i <= r < end
    decreases end - i
  {
    if i == end then none else if lines[i].shape.kind.StepsKey? then i else StepsIndex(lines, i + 1, end, none)
  }

  datatype Edit = Existing | Conflict | Add(at: nat, lines: seq<Line>)

  /** What has to be done to give the job at `start` its axis. */
  function MatrixEdit(lines: seq<Line>, start: nat, end: nat): (e: Edit)
    requires start < end <= |lines|
    ensures e.Add? ==> start < e.at <= |lines|
    ensures e.Add? ==> 0 < |e.lines| <= 3
    ensures e.Add? ==> forall k | 0 <= k < |e.lines| ::
            WellRead(e.lines[k]) && e.lines[k].shape.Quiet() && !e.lines[k].shape.Env()
  {
    var job := lines[start].Indent();
    var f := ScanMatrix(lines, start + 1, end, job, NOTHING);
    if f.mode.Some? then (if Modes(lines, f.mode.value) == MATRIX_MODES then Existing else Conflict)
    else if f.strategy.None? then
      Add(StepsIndex(lines, start + 1, end, start + 1), [StrategyLine(job + 2), MatrixLine(job + 4), ModeLine(job + 6)])
    else if f.matrix.None? then
      var n := lines[f.strategy.value].Indent();
      Add(f.strategy.value + 1, [MatrixLine(n + 2), ModeLine(n + 4)])
    else Add(f.matrix.value + 1, [ModeLine(lines[f.matrix.value].Indent() + 2)])
  }

  lemma {:induction false} ScanStep(lines: seq<Line>, i: nat, end: nat, job: nat, f: Found)
    requires i <= end <= |lines| && Before(lines, f, i)
    ensures i == end ==> ScanMatrix(lines, i, end, job, f) == f
    ensures i < end && Stops(lines, job, f, i) ==> ScanMatrix(lines, i, end, job, f) == f
    ensures i < end && !Stops(lines, job, f, i) ==>
              var n := Noted(f, lines[i], i);
              if n.mode.Some? then ScanMatrix(lines, i, end, job, f) == n
              else Before(lines, n, i + 1) && ScanMatrix(lines, i, end, job, f) == ScanMatrix(lines, i + 1, end, job, n)
  {
    hide Stops;
  }

  /** The scan as the patcher runs it. */
  method FindAxis(lines: seq<Line>, start: nat, end: nat) returns (f: Found)
    requires start < end <= |lines|
    ensures f == ScanMatrix(lines, start + 1, end, lines[start].Indent(), NOTHING)
  {
    hide ScanMatrix;
    f := NOTHING;
    var job := lines[start].Indent();
    var i := start + 1;
    while i < end
      invariant start < i <= end && Before(lines, f, i)
      invariant ScanMatrix(lines, i, end, job, f) == ScanMatrix(lines, start + 1, end, job, NOTHING)
    {
      var l, key := lines[i], lines[i].shape.kind;
      ScanStep(lines, i, end, job, f);
      if l.shape.Blank() {
        i := i + 1;
        continue;
      }
      if l.Indent() <= job {
        break;
      }
      if key.StrategyKey? {
        f := f.(strategy := Some(i));
        i := i + 1;
        continue;
      }
      if f.strategy.Some? && l.Indent() <= lines[f.strategy.value].Indent() {
        break;
      }
      if f.strategy.Some? {
        if key.MatrixKey? {
          f := f.(matrix := Some(i));
          i := i + 1;
          continue;
        }
        if f.matrix.Some? {
          if key.ModeKey? && lines[f.matrix.value].Indent() < l.Indent() {
            return f.(mode := Some(i));
          }
          if l.Indent() <= lines[f.matrix.value].Indent() {
            break;
          }
        }
      }
      i := i + 1;
    }
    if i == end {
      ScanStep(lines, end, end, job, f);
    }
  }

  method EnsureMatrix(lines: seq<Line>, start: nat, end: nat) returns (e: Edit)
    requires start < end <= |lines|
    ensures e == MatrixEdit(lines, start, end)
  {
    hide Read;
    var f := FindAxis(lines, start, end);
    if f.mode.Some? {
      return if Modes(lines, f.mode.value) == MATRIX_MODES then Existing else Conflict;
    }
    var job := lines[start].Indent();
    if f.strategy.None? {
      var at := StepsIndex(lines, start + 1, end, start + 1);
      return Add(at, [StrategyLine(job + 2), MatrixLine(job + 4), ModeLine(job + 6)]);
    }
    if f.matrix.None? {
      var n := lines[f.strategy.value].Indent();
      return Add(f.strategy.value + 1, [MatrixLine(n + 2), ModeLine(n + 4)]);
    }
    return Add(f.matrix.value + 1, [ModeLine(lines[f.matrix.value].Indent() + 2)]);
  }

  // ---------------------------------------------------------------- the axis is found again

  predicate NoneOf(s: string, chars: string) { s != "" && s[0] !in chars && s[|s| - 1] !in chars }

  lemma {:induction false} StripSetIs(pre: string, core: string, post: string, chars: string)
    requires (forall k | 0 <= k < |pre| :: pre[k] in chars) && (forall k | 0 <= k < |post| :: post[k] in chars)
    requires NoneOf(core, chars)
    ensures StripSet(pre + core + post, chars) == core
    decreases |pre| + |post|
  {
    var s := pre + core + post;
    if pre != "" {
      assert s[1..] == pre[1..] + core + post;
      StripSetIs(pre[1..], core, post, chars);
    } else if post != "" {
      assert s[0] == core[0] && s[|s| - 1] == post[|post| - 1];
      assert s[..|s| - 1] == pre + core + post[..|post| - 1];
      StripSetIs(pre, core, post[..|post| - 1], chars);
    } else {
      assert s == core;
    }
  }

  lemma {:induction false} InlineItem(pre: string, item: string, rest: seq<string>)
    requires AllSpaces(pre) && item != "" && !Space(item[0]) && !Space(item[|item| - 1]) && NoneOf(item, "'\"")
    ensures InlineParts([pre + item] + rest) == [item] + InlineParts(rest)
  {
    StripIs(pre, item, "");
    assert pre + item + "" == pre + item;
    StripSetIs("", item, "", "'\"");
    assert "" + item + "" == item;
    assert ([pre + item] + rest)[1..] == rest;
  }

  lemma {:induction false} ListOfTwo(a: string, b: string)
    requires ',' !in a && ',' !in b
    requires a != "" && !Space(a[0]) && !Space(a[|a| - 1]) && NoneOf(a, "'\"")
    requires b != "" && !Space(b[0]) && !Space(b[|b| - 1]) && NoneOf(b, "'\"")
    ensures InlineParts(Split(a + [','] + (" " + b), ',')) == [a, b]
  {
    SplitFirst(a, " " + b, ',');
    SplitWord(" " + b, ',');
    InlineItem("", a, [" " + b]);
    assert "" + a == a;
    InlineItem(" ", b, []);
    assert [" " + b] + [] == [" " + b] && [a] + [" " + b] == [a, " " + b];
  }

  lemma {:induction false} BracketedList(s: string, inner: string)
    requires NoneOf(inner, "[] ") && s == " [" + inner + "]"
    ensures StripSet(Strip(s), "[] ") == inner
  {
    var core := "[" + inner + "]";
    StripIs(" ", core, "");
    assert " " + core + "" == s;
    StripSetIs("[", inner, "]", "[] ");
  }

  lemma {:induction false} ModeLineModes(text: string)
    requires text == MODE_LINE
    ensures InlineModes(text) == MATRIX_MODES
  {
    var inner := "stub" + [','] + (" " + "redis");
    assert text[5..] == " [" + inner + "]";
    BracketedList(text[5..], inner);
    ListOfTwo("stub", "redis");
  }

  lemma {:induction false} ModeLineIsInline(text: string)
    requires text == MODE_LINE
    ensures Strip(text) != "mode:"
  {
    StripIs("", text, "");
    assert "" + text + "" == text;
  }

  ghost predicate SameUpTo(lines: seq<Line>, u: seq<Line>, at: nat) {
    at <= |lines| && at <= |u| && forall k | 0 <= k < at :: u[k] == lines[k]
  }

  /** Without a strategy, the scan of the edited text passes every line before the edit. */
  lemma {:induction false} ScanToSteps(lines: seq<Line>, u: seq<Line>, i: nat, end: nat, end': nat, job: nat, at: nat)
    requires i <= at <= end <= |lines| && at <= end' <= |u| && SameUpTo(lines, u, at)
    requires forall k | i <= k < end :: lines[k].shape.Blank() || job < lines[k].Indent()
    requires ScanMatrix(lines, i, end, job, NOTHING).strategy.None?
    ensures ScanMatrix(u, i, end', job, NOTHING) == ScanMatrix(u, at, end', job, NOTHING)
    decreases at - i
  {
    hide Read;
    if i < at {
      assert Noted(NOTHING, lines[i], i) == NOTHING;
      ScanToSteps(lines, u, i + 1, end, end', job, at);
    }
  }

  lemma {:induction false} SameStops(lines: seq<Line>, u: seq<Line>, job: nat, f: Found, i: nat, at: nat)
    requires i < at && SameUpTo(lines, u, at) && Before(lines, f, i)
    ensures Before(u, f, i) && Stops(u, job, f, i) == Stops(lines, job, f, i)
  {
  }

  /** One line of the scan, in the text and in the edited text. */
  lemma {:induction false} SameStep(lines: seq<Line>, u: seq<Line>, i: nat, end: nat, end': nat, job: nat, f: Found,
                                    at: nat)
    requires i < at <= end <= |lines| && at <= end' <= |u| && SameUpTo(lines, u, at) && Before(lines, f, i)
    requires !Stops(lines, job, f, i) && Noted(f, lines[i], i).mode.None?
    ensures Before(u, f, i) && Before(lines, Noted(f, lines[i], i), i + 1)
    ensures ScanMatrix(lines, i, end, job, f) == ScanMatrix(lines, i + 1, end, job, Noted(f, lines[i], i))
    ensures ScanMatrix(u, i, end', job, f) == ScanMatrix(u, i + 1, end', job, Noted(f, lines[i], i))
  {
    SameStops(lines, u, job, f, i, at);
  }

  /** What the scan returns, the line before the edit: the matrix, or else the strategy. */
  ghost predicate EditedAfter(lines: seq<Line>, r: Found, at: nat) {
    && 0 < at <= |lines| && r.mode.None?
    && if r.matrix.Some? then r.matrix == Some(at - 1) else r.strategy == Some(at - 1)
  }

  /** The scan of the edited text finds the same strategy, or the same matrix, on the line before the edit. */
  lemma {:induction false} ScanToEdit(lines: seq<Line>, u: seq<Line>, i: nat, end: nat, end': nat, job: nat, f: Found,
                                      at: nat)
    returns (g: Found)
    requires i < at <= end <= |lines| && at <= end' <= |u| && SameUpTo(lines, u, at) && Before(lines, f, i)
    requires EditedAfter(lines, ScanMatrix(lines, i, end, job, f), at)
    ensures Before(u, g, at) && ScanMatrix(u, i, end', job, f) == ScanMatrix(u, at, end', job, g)
    ensures job < lines[at - 1].Indent()
    ensures ScanMatrix(lines, i, end, job, f).matrix.Some? ==>
              g.matrix == Some(at - 1) && lines[g.strategy.value].Indent() < lines[at - 1].Indent()
    ensures ScanMatrix(lines, i, end, job, f).matrix.None? ==> g == Found(Some(at - 1), None, None)
    decreases at - i
  {
    var next := Noted(f, lines[i], i);
    SameStep(lines, u, i, end, end', job, f, at);
    if i + 1 == at {
      g := next;
      LastStep(lines, i, end, job, f);
    } else {
      g := ScanToEdit(lines, u, i + 1, end, end', job, next, at);
    }
  }

  lemma {:induction false} LastStep(lines: seq<Line>, i: nat, end: nat, job: nat, f: Found)
    requires i < end <= |lines| && Before(lines, f, i)
    requires EditedAfter(lines, ScanMatrix(lines, i, end, job, f), i + 1)
    ensures job < lines[i].Indent()
    ensures ScanMatrix(lines, i, end, job, f).matrix.Some? ==>
              Noted(f, lines[i], i).matrix == Some(i)
                  && lines[Noted(f, lines[i], i).strategy.value].Indent() < lines[i].Indent()
    ensures ScanMatrix(lines, i, end, job, f).matrix.None? ==> Noted(f, lines[i], i) == Found(Some(i), None, None)
  {
  }

  /** From the line at which the axis was written, the scan finds it. */
  lemma {:induction false} ScanFindsMode(u: seq<Line>, i: nat, end: nat, job: nat, f: Found, n: nat)
    requires i < end <= |u| && Before(u, f, i) && f.matrix.Some? && u[f.matrix.value].Indent() < n
    requires u[f.strategy.value].Indent() < n && job < n && u[i] == ModeLine(n)
    ensures ScanMatrix(u, i, end, job, f) == f.(mode := Some(i))
  {
    hide Read;
  }

  lemma {:induction false} ScanFindsMatrix(u: seq<Line>, i: nat, end: nat, job: nat, f: Found, n: nat)
    requires i + 1 < end <= |u| && Before(u, f, i) && f.strategy.Some? && u[f.strategy.value].Indent() < n && job < n
    requires f.matrix.None? && u[i] == MatrixLine(n) && u[i + 1] == ModeLine(n + 2)
    ensures ScanMatrix(u, i, end, job, f) == f.(matrix := Some(i), mode := Some(i + 1))
  {
    hide Read;
    ScanFindsMode(u, i + 1, end, job, f.(matrix := Some(i)), n + 2);
  }

  lemma {:induction false} ScanFindsStrategy(u: seq<Line>, i: nat, end: nat, job: nat)
    requires i + 2 < end <= |u|
    requires u[i] == StrategyLine(job + 2) && u[i + 1] == MatrixLine(job + 4) && u[i + 2] == ModeLine(job + 6)
    ensures ScanMatrix(u, i, end, job, NOTHING) == Found(Some(i), Some(i + 1), Some(i + 2))
  {
    hide Read;
    ScanFindsMatrix(u, i + 1, end, job, Found(Some(i), None, None), job + 4);
  }

  /** What the scan finds in the lines of a job before `end`. */
  function ScanHeader(lines: seq<Line>, start: nat, end: nat): (f: Found)
    requires start < end <= |lines|
  {
    ScanMatrix(lines, start + 1, end, lines[start].Indent(), NOTHING)
  }

  /** The scan finds a mode line that the patcher wrote. */
  ghost predicate ModeWritten(u: seq<Line>, start: nat, end: nat) {
    && start < end <= |u|
    && var f := ScanHeader(u, start, end);
       f.mode.Some? && exists n: nat :: u[f.mode.value] == ModeLine(n)
  }

  lemma {:induction false} WrittenModeReads(u: seq<Line>, start: nat, end: nat)
    requires ModeWritten(u, start, end)
    ensures var f := ScanHeader(u, start, end);
            Modes(u, f.mode.value) == MATRIX_MODES && Strip(u[f.mode.value].text) != "mode:"
  {
    hide Read;
    var f := ScanMatrix(u, start + 1, end, u[start].Indent(), NOTHING);
    ModeLineIsInline(u[f.mode.value].text);
    ModeLineModes(u[f.mode.value].text);
  }

  lemma {:induction false} NewStrategyIsFound(lines: seq<Line>, u: seq<Line>, start: nat, end: nat, at: nat)
    requires start < at <= end <= |lines| && |u| == |lines| + 3 && SameUpTo(lines, u, at)
    requires forall k | start < k < end :: lines[k].shape.Blank() || lines[start].Indent() < lines[k].Indent()
    requires ScanMatrix(lines, start + 1, end, lines[start].Indent(), NOTHING).strategy.None?
    requires var job := lines[start].Indent();
             u[at] == StrategyLine(job + 2) && u[at + 1] == MatrixLine(job + 4) && u[at + 2] == ModeLine(job + 6)
    ensures ModeWritten(u, start, end + 3)
  {
    hide Read;
    var job := lines[start].Indent();
    ScanToSteps(lines, u, start + 1, end, end + 3, job, at);
    ScanFindsStrategy(u, at, end + 3, job);
  }

  lemma {:induction false} NewMatrixIsFound(lines: seq<Line>, u: seq<Line>, start: nat, end: nat, at: nat)
    requires start + 1 < at <= end <= |lines| && |u| == |lines| + 2 && SameUpTo(lines, u, at)
    requires ScanMatrix(lines, start + 1, end, lines[start].Indent(), NOTHING) == Found(Some(at - 1), None, None)
    requires var n := lines[at - 1].Indent(); u[at] == MatrixLine(n + 2) && u[at + 1] == ModeLine(n + 4)
    ensures ModeWritten(u, start, end + 2)
  {
    hide Read;
    var job, n := lines[start].Indent(), lines[at - 1].Indent();
    var g := ScanToEdit(lines, u, start + 1, end, end + 2, job, NOTHING, at);
    ScanFindsMatrix(u, at, end + 2, job, g, n + 2);
  }

  lemma {:induction false} NewModeIsFound(lines: seq<Line>, u: seq<Line>, start: nat, end: nat, at: nat)
    requires start + 1 < at <= end <= |lines| && |u| == |lines| + 1 && SameUpTo(lines, u, at)
    requires var f := ScanMatrix(lines, start + 1, end, lines[start].Indent(), NOTHING);
             f.mode.None? && f.matrix == Some(at - 1)
    requires u[at] == ModeLine(lines[at - 1].Indent() + 2)
    ensures ModeWritten(u, start, end + 1)
  {
    hide Read;
    var job, n := lines[start].Indent(), lines[at - 1].Indent();
    var g := ScanToEdit(lines, u, start + 1, end, end + 1, job, NOTHING, at);
    ScanFindsMode(u, at, end + 1, job, g, n + 2);
  }

  lemma {:induction false} AddedLines(lines: seq<Line>, at: nat, ls: seq<Line>, u: seq<Line>)
    requires at <= |lines| && u == lines[..at] + ls + lines[at..]
    ensures |u| == |lines| + |ls| && SameUpTo(lines, u, at)
    ensures |ls| > 0 ==> u[at] == ls[0]
    ensures |ls| > 1 ==> u[at + 1] == ls[1]
    ensures |ls| > 2 ==> u[at + 2] == ls[2]
  {
  }

  /** What is missing of the axis, and where it belongs: behind what there is of it. */
  ghost predicate AxisLines(lines: seq<Line>, start: nat, f: Found, at: nat, ls: seq<Line>)
    requires start < at <= |lines|
  {
    var job, n := lines[start].Indent(), lines[at - 1].Indent();
    && f.mode.None?
    && (f.strategy.None? ==> ls == [StrategyLine(job + 2), MatrixLine(job + 4), ModeLine(job + 6)])
    && (f.strategy.Some? && f.matrix.None? ==> at == f.strategy.value + 1 && ls == [MatrixLine(n + 2), ModeLine(n + 4)])
    && (f.matrix.Some? ==> at == f.matrix.value + 1 && ls == [ModeLine(n + 2)])
  }

  /** The axis that is written is found by the scan of the job: up to `end` and as much further as lines were
      written. */
  lemma {:induction false} AxisIsFound(lines: seq<Line>, start: nat, end: nat, at: nat, ls: seq<Line>)
    requires start < at <= end <= |lines| && AxisLines(lines, start, ScanHeader(lines, start, end), at, ls)
    requires forall k | start < k < end :: lines[k].shape.Blank() || lines[start].Indent() < lines[k].Indent()
    ensures ModeWritten(lines[..at] + ls + lines[at..], start, end + |ls|)
  {
    hide Read, Modes, Stops, Noted, ScanMatrix, StrategyLine, MatrixLine, ModeLine, WellRead;
    var u := lines[..at] + ls + lines[at..];
    AddedLines(lines, at, ls, u);
    var f := ScanMatrix(lines, start + 1, end, lines[start].Indent(), NOTHING);
    if f.strategy.None? {
      NewStrategyIsFound(lines, u, start, end, at);
    } else if f.matrix.None? {
      NewMatrixIsFound(lines, u, start, end, at);
    } else {
      NewModeIsFound(lines, u, start, end, at);
    }
  }

  lemma {:induction false} MatrixForm(lines: seq<Line>, start: nat, end: nat)
    requires start < end <= |lines| && MatrixEdit(lines, start, end).Add?
    ensures var e, f := MatrixEdit(lines, start, end), ScanHeader(lines, start, end);
            AxisLines(lines, start, f, e.at, e.lines)
                && (f.strategy.None? ==> e.at == StepsIndex(lines, start + 1, end, start + 1))
  {
    hide Modes, StrategyLine, MatrixLine, ModeLine, MATRIX_MODES, StepsIndex, ScanMatrix;
  }

  lemma {:induction false} ExistingForm(u: seq<Line>, start: nat, end: nat)
    requires start < end <= |u|
    requires var f := ScanHeader(u, start, end);
             f.mode.Some? && Modes(u, f.mode.value) == MATRIX_MODES
    ensures MatrixEdit(u, start, end) == Existing
  {
    hide Read, Modes, ScanMatrix, StepsIndex, MATRIX_MODES;
  }

  /** A job keeps the axis it was given: ensuring it again finds it and changes nothing. */
  lemma {:induction false} AxisEnsuredOnce(lines: seq<Line>, start: nat, end: nat)
    requires start < end <= |lines|
    requires forall k | start < k < end :: lines[k].shape.Blank() || lines[start].Indent() < lines[k].Indent()
    requires MatrixEdit(lines, start, end).Add?
    ensures var e := MatrixEdit(lines, start, end);
            MatrixEdit(lines[..e.at] + e.lines + lines[e.at..], start, end + |e.lines|) == Existing
  {
    hide Read, Modes, Stops, Noted, ScanMatrix, StepsIndex, StrategyLine, MatrixLine, ModeLine, WellRead, Strip;
    hide MATRIX_MODES;
    var e := MatrixEdit(lines, start, end);
    MatrixForm(lines, start, end);
    AxisIsFound(lines, start, end, e.at, e.lines);
    var u := lines[..e.at] + e.lines + lines[e.at..];
    WrittenModeReads(u, start, end + |e.lines|);
    ExistingForm(u, start, end + |e.lines|);
  }
}
