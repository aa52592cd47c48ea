/** Rewriting one step so that it runs the CI runner instead of pytest. */
module StepRewriter {
  import opened PyStrings
  import opened StepBlocks
  import opened WorkflowLines
  import opened StepNames

  predicate Named(s: string) { "name:" <= s || "- name:" <= s }

  function Suffixed(l: Line): Line { Read(l.Indent(), AppendSuffix(l.text)) }

  lemma {:induction false} NamedStart(s: string)
    requires Named(s)
    ensures s != "" && (s[0] == 'n' || s[0] == '-')
  {
    assert "name:"[0] == 'n' && "- name:"[0] == '-';
  }

  lemma {:induction false} KindByStart(s: string)
    requires s != "" && (s[0] == 'n' || s[0] == '-')
    ensures KindOf(s) == if s[0] == '-' then Kind.Dash else Other
  {
    if s[0] == 'n' {
      OtherKey(s, 'n');
    }
  }

  lemma {:induction false} HeadStart(s: string)
    requires HeadLength(s).Some?
    ensures s != "" && (s[0] == 'n' || s[0] == '-')
  {
    assert "name:"[0] == 'n';
  }

  /** Marking a line changes neither its depth, nor its kind, nor whether it runs pytest. */
  lemma {:induction false} SuffixedKeepsShape(l: Line)
    requires WellRead(l)
    ensures Suffixed(l).shape == l.shape
    ensures Named(l.text) ==> l.shape.kind == Kind.Dash || l.shape.kind == Other
  {
    var s, u := l.text, AppendSuffix(l.text);
    SuffixKeepsPytest(s);
    if Named(s) {
      NamedStart(s);
      KindByStart(s);
    }
    if u != s {
      HeadStart(s);
      KindByStart(s);
      AppendSuffixKeepsKey(s);
      assert u[..5][0] == s[..5][0];
      KindByStart(u);
    }
  }

  // ---------------------------------------------------------------- what is kept, and what is dropped

  /** Line `m` is the run key at `r` or belongs to it, blank lines included. */
  ghost predicate InRunText(t: Text, r: nat, m: nat) {
    r <= m < |t| && t[r].Run() && forall y | r < y <= m :: t[y].Blank() || t[r].indent < t[y].indent
  }

  ghost predicate InSomeRun(t: Text, m: nat) { exists r: nat :: InRunText(t, r, m) }

  const RUN_STEP_NAME := "Run pytest suite"

  /** The name written for a step without one. */
  const NEW_NAME := RUN_STEP_NAME + RUNNER_STEP_SUFFIX

  /** What the patcher writes by itself: keys, the flag, the runner, names and commands of its own steps. */
  predicate OwnText(s: string) {
    || s == STRATEGY_KEY || s == MATRIX_KEY || s == MODE_LINE || s == ENV_KEY || s == ENV_FLAG_LINE || s == RUN_HEADER
    || s == RUNNER_COMMAND || s in INSTALL_RUN_COMMANDS || s in SELECT_COMMANDS
    || s == NameText(INSTALL_STEP_NAME) || s == NameText(SELECT_STEP_NAME) || s == NameText(NEW_NAME)
  }

  /** A line that the patcher writes does not open the steps of a job. */
  predicate Written(l: Line) { WellRead(l) && !l.shape.kind.StepsKey? && OwnText(l.text) }

  /** Only a name line is changed, and only by the suffix. */
  predicate KeptLine(origin: Line, l: Line) { l == origin || (Named(origin.text) && l == Suffixed(origin)) }

  /** `src[k]` is the index in `b` of the line that became `u[k]`, or -1 for a line that was written.  Of the first `i`
      lines of `b`, those of run keys may be missing; every other one is kept, in order, at most with the suffix. */
  ghost predicate Kept(b: seq<Line>, u: seq<Line>, src: seq<int>, i: nat) {
    && i <= |b| && |src| == |u|
    && (forall k | 0 <= k < |src| :: -1 <= src[k] < i)
    && (forall k | 0 <= k < |src| && 0 <= src[k] :: KeptLine(b[src[k]], u[k]))
    && (forall k | 0 <= k < |src| && src[k] < 0 :: Written(u[k]))
    && (forall j, k | 0 <= j < k < |src| && 0 <= src[j] && 0 <= src[k] :: src[j] < src[k])
    && (forall m: nat | m < i && m !in src :: InSomeRun(Shapes(b), m))
  }

  lemma {:induction false} KeepLine(b: seq<Line>, u: seq<Line>, src: seq<int>, i: nat, l: Line)
    requires Kept(b, u, src, i) && i < |b|
    requires KeptLine(b[i], l)
    ensures Kept(b, u + [l], src + [i], i + 1)
  {
    assert forall m | m in src :: m in src + [i];
    assert (src + [i])[|src|] == i;
  }

  function NothingWas(n: nat): (src: seq<int>)
    ensures |src| == n && forall k | 0 <= k < n :: src[k] == -1
  {
    seq(n, k => -1)
  }

  /** The lines `u` and where they come from, when lines `ls` are inserted at `p`. */
  ghost predicate Widened(u: seq<Line>, src: seq<int>, p: nat, ls: seq<Line>, v: seq<Line>, from: seq<int>) {
    && p <= |u| == |src| && |v| == |from| == |u| + |ls|
    && (forall k | 0 <= k < p :: v[k] == u[k] && from[k] == src[k])
    && (forall k | p <= k < p + |ls| :: v[k] == ls[k - p] && from[k] == -1)
    && (forall k | p + |ls| <= k < |v| :: v[k] == u[k - |ls|] && from[k] == src[k - |ls|])
  }

  lemma {:induction false} WidenedIs(u: seq<Line>, src: seq<int>, p: nat, ls: seq<Line>)
    requires p <= |u| == |src|
    ensures Widened(u, src, p, ls, u[..p] + ls + u[p..], src[..p] + NothingWas(|ls|) + src[p..])
  {
    hide NothingWas;
  }

  /** The line of `u` that line `k` was. */
  function LineOf(p: nat, n: nat, k: nat): int { if k < p then k else k - n }

  lemma {:induction false} WidenedLine(u: seq<Line>, src: seq<int>, p: nat, ls: seq<Line>, v: seq<Line>,
                                       from: seq<int>, k: nat)
    requires Widened(u, src, p, ls, v, from) && k < |from| && 0 <= from[k]
    ensures k < p || p + |ls| <= k
    ensures 0 <= LineOf(p, |ls|, k) < |src|
    ensures from[k] == src[LineOf(p, |ls|, k)] && v[k] == u[LineOf(p, |ls|, k)]
  {
  }

  lemma {:induction false} WidenedNew(u: seq<Line>, src: seq<int>, p: nat, ls: seq<Line>, v: seq<Line>,
                                      from: seq<int>, k: nat)
    requires Widened(u, src, p, ls, v, from) && k < |from| && from[k] < 0 && forall i | 0 <= i < |src| :: -1 <= src[i]
    requires forall i | 0 <= i < |src| && src[i] < 0 :: Written(u[i])
    requires forall i | 0 <= i < |ls| :: Written(ls[i])
    ensures Written(v[k]) && from[k] == -1
  {
    hide Written;
  }

  lemma {:induction false} WidenedHolds(u: seq<Line>, src: seq<int>, p: nat, ls: seq<Line>, v: seq<Line>,
                                        from: seq<int>, m: int)
    requires Widened(u, src, p, ls, v, from) && m in src
    ensures m in from
  {
    var k: nat :| k < |src| && src[k] == m;
    assert from[if k < p then k else k + |ls|] == m;
  }

  lemma {:induction false} KeptParts(b: seq<Line>, u: seq<Line>, src: seq<int>, i: nat)
    requires Kept(b, u, src, i)
    ensures i <= |b| && |src| == |u|
    ensures forall k | 0 <= k < |src| :: -1 <= src[k] < i && (0 <= src[k] ==> KeptLine(b[src[k]], u[k]))
    ensures forall k | 0 <= k < |src| && src[k] < 0 :: Written(u[k])
    ensures forall j, k | 0 <= j < k < |src| && 0 <= src[j] && 0 <= src[k] :: src[j] < src[k]
    ensures forall m: nat | m < i && m !in src :: InSomeRun(Shapes(b), m)
  {
    hide Written, KeptLine, InSomeRun;
  }

  lemma {:induction false} KeptIf(b: seq<Line>, u: seq<Line>, src: seq<int>, i: nat)
    requires i <= |b| && |src| == |u|
    requires forall k | 0 <= k < |src| :: -1 <= src[k] < i && (0 <= src[k] ==> KeptLine(b[src[k]], u[k]))
    requires forall k | 0 <= k < |src| && src[k] < 0 :: Written(u[k])
    requires forall j, k | 0 <= j < k < |src| && 0 <= src[j] && 0 <= src[k] :: src[j] < src[k]
    requires forall m: nat | m < i && m !in src :: InSomeRun(Shapes(b), m)
    ensures Kept(b, u, src, i)
  {
    hide Written, KeptLine, InSomeRun;
  }

  /** Lines that are written and inserted anywhere leave what is kept. */
  lemma {:induction false} KeptWithLines(b: seq<Line>, u: seq<Line>, src: seq<int>, p: nat, ls: seq<Line>)
    returns (from: seq<int>)
    requires Kept(b, u, src, |b|) && p <= |u| && forall k | 0 <= k < |ls| :: Written(ls[k])
    ensures Kept(b, u[..p] + ls + u[p..], from, |b|)
  {
    hide *;
    KeptParts(b, u, src, |b|);
    var v := u[..p] + ls + u[p..];
    from := src[..p] + NothingWas(|ls|) + src[p..];
    WidenedIs(u, src, p, ls);
    forall k | 0 <= k < |from|
      ensures -1 <= from[k] < |b| && (0 <= from[k] ==> KeptLine(b[from[k]], v[k])) && (from[k] < 0 ==> Written(v[k]))
    {
      if 0 <= from[k] {
        WidenedLine(u, src, p, ls, v, from, k);
      } else {
        WidenedNew(u, src, p, ls, v, from, k);
      }
    }
    forall j, k | 0 <= j < k < |from| && 0 <= from[j] && 0 <= from[k]
      ensures from[j] < from[k]
    {
      WidenedLine(u, src, p, ls, v, from, j);
      WidenedLine(u, src, p, ls, v, from, k);
      LinesInOrder(p, |ls|, j, k);
    }
    forall m: nat | m < |b| && m !in from
      ensures InSomeRun(Shapes(b), m)
    {
      if m in src {
        WidenedHolds(u, src, p, ls, v, from, m);
      }
    }
    KeptIf(b, v, from, |b|);
  }

  lemma {:induction false} LinesInOrder(p: nat, n: nat, j: nat, k: nat)
    requires j < k && (j < p || p + n <= j) && (k < p || p + n <= k)
    ensures LineOf(p, n, j) < LineOf(p, n, k)
  {
  }

  lemma {:induction false} TwoWritten(u: seq<Line>, src: seq<int>, header: Line, body: Line)
    requires |src| == |u|
    ensures var v, from := u + [header, body], src + [-1, -1];
            && |v| == |from| == |u| + 2 && v[|u|] == header && v[|u| + 1] == body && from[|u|] == from[|u| + 1] == -1
            && (forall k | 0 <= k < |u| :: v[k] == u[k] && from[k] == src[k]) && (forall m | m in src :: m in from)
  {
  }

  /** The lines of a run key are dropped, and two are written in their place. */
  lemma {:induction false} DropLines(b: seq<Line>, u: seq<Line>, src: seq<int>, i: nat, j: nat, header: Line,
                                     body: Line)
    requires Kept(b, u, src, i) && i < j <= |b| && InRunText(Shapes(b), i, j - 1) && Written(header) && Written(body)
    ensures Kept(b, u + [header, body], src + [-1, -1], j)
  {
    hide *;
    KeptParts(b, u, src, i);
    TwoWritten(u, src, header, body);
    forall m: nat | m < j && m !in src + [-1, -1]
      ensures InSomeRun(Shapes(b), m)
    {
      if i <= m {
        RunTextHolds(Shapes(b), i, j - 1, m);
      }
    }
    KeptIf(b, u + [header, body], src + [-1, -1], j);
  }

  lemma {:induction false} RunTextHolds(t: Text, r: nat, last: nat, m: nat)
    requires InRunText(t, r, last) && r <= m <= last
    ensures InSomeRun(t, m)
  {
    assert InRunText(t, r, m);
  }

  ghost predicate AllRead(ls: seq<Line>) { forall k | 0 <= k < |ls| :: WellRead(ls[k]) }

  // ---------------------------------------------------------------- the rewriter

  predicate Deeper(l: Line, indent: nat) { l.shape.Blank() || indent < l.Indent() }

  /** The first line at or after `j` that is neither blank nor deeper than `indent`. */
  function ExtentEnd(b: seq<Line>, j: nat, indent: nat): (e: nat)
    requires j <= |b|
    ensures j <= e <= |b| && (forall y | j <= y < e :: Deeper(b[y], indent))
    ensures e < |b| ==> !Deeper(b[e], indent)
    decreases |b| - j
  {
    if j < |b| && Deeper(b[j], indent) then ExtentEnd(b, j + 1, indent) else j
  }

  /** What the rewriter has written, whether it has met a name, the last run key it wrote, and the origin of each
      line. */
  datatype Draft = Draft(lines: seq<Line>, named: bool, hint: Option<nat>, src: seq<int>) {
    function Keep(l: Line, i: int, isName: bool): Draft {
      Draft(lines + [l], named || isName, hint, src + [i])
    }

    function Run(step: nat): Draft {
      Draft(lines + [RunHeader(step + 2), RunnerLine(step + 4)], named, Some(|lines|), src + [-1, -1])
    }

    function Copy(ls: seq<Line>, i: int): Draft {
      Draft(lines + ls, named, hint, src + seq(|ls|, k => i + k))
    }
  }

  const BLANK := Draft([], false, None, [])

  /** The line to read after line `i`: an env mapping and a run key are read with the lines that belong to them. */
  function NextLine(b: seq<Line>, i: nat): (j: nat)
    requires i < |b|
    ensures i < j <= |b|
  {
    if !Named(b[i].text) && (b[i].shape.Env() || b[i].shape.Run()) then ExtentEnd(b, i + 1, b[i].Indent()) else i + 1
  }

  /** The draft after line `i` and the lines read with it. */
  function NextDraft(b: seq<Line>, step: nat, i: nat, d: Draft): Draft
    requires i < |b|
  {
    if Named(b[i].text) then d.Keep(Suffixed(b[i]), i, true)
    else if b[i].shape.Env() then d.Copy(b[i..NextLine(b, i)], i)
    else if b[i].shape.Run() then d.Run(step)
    else d.Keep(b[i], i, false)
  }

  /** The draft after reading lines `i..` of the step. */
  function Rewrite(b: seq<Line>, step: nat, i: nat, d: Draft): Draft
    requires i <= |b|
    decreases |b| - i
  {
    if i == |b| then d else Rewrite(b, step, NextLine(b, i), NextDraft(b, step, i, d))
  }

  lemma {:induction false} RewriteNext(b: seq<Line>, step: nat, i: nat, d: Draft)
    requires i <= |b|
    ensures i < |b| ==> Rewrite(b, step, i, d) == Rewrite(b, step, NextLine(b, i), NextDraft(b, step, i, d))
    ensures i == |b| ==> Rewrite(b, step, i, d) == d
  {
    hide NextLine, NextDraft;
  }

  method SkipDeeper(b: seq<Line>, start: nat, indent: nat) returns (i: nat)
    requires start <= |b|
    ensures i == ExtentEnd(b, start, indent)
  {
    i := start;
    while i < |b| && Deeper(b[i], indent)
      invariant start <= i <= |b| && ExtentEnd(b, i, indent) == ExtentEnd(b, start, indent)
    {
      i := i + 1;
    }
  }

  method RewriteBody(b: seq<Line>, step: nat)
    returns (u: seq<Line>, nameSeen: bool, hint: Option<nat>, ghost src: seq<int>)
    ensures Draft(u, nameSeen, hint, src) == Rewrite(b, step, 0, BLANK)
  {
    hide Read, Suffixed, Named, RunHeader, RunnerLine, RUN_HEADER, RUNNER_COMMAND, Rewrite;
    u, nameSeen, hint, src := [], false, None, [];
    var i := 0;
    while i < |b|
      invariant i <= |b|
      invariant Rewrite(b, step, i, Draft(u, nameSeen, hint, src)) == Rewrite(b, step, 0, BLANK)
    {
      var line := b[i];
      RewriteNext(b, step, i, Draft(u, nameSeen, hint, src));
      if Named(line.text) {
        nameSeen := true;
        u, src := u + [Suffixed(line)], src + [i];
        i := i + 1;
      } else if line.shape.Env() {
        ghost var d, e := Draft(u, nameSeen, hint, src), i;
        u := u + [line];
        i := i + 1;
        while i < |b| && Deeper(b[i], line.Indent())
          invariant e < i <= |b| && u == d.lines + b[e..i]
          invariant ExtentEnd(b, i, line.Indent()) == NextLine(b, e)
        {
          u := u + [b[i]];
          i := i + 1;
        }
        src := src + seq(|b[e..i]|, k => e + k);
        assert Draft(u, nameSeen, hint, src) == d.Copy(b[e..i], e);
      } else if line.shape.Run() {
        hint := Some(|u|);
        i := SkipDeeper(b, i + 1, line.Indent());
        u, src := u + [RunHeader(step + 2), RunnerLine(step + 4)], src + [-1, -1];
      } else {
        u, src := u + [line], src + [i];
        i := i + 1;
      }
    }
    RewriteNext(b, step, |b|, Draft(u, nameSeen, hint, src));
  }

  // ---------------------------------------------------------------- the draft is sound at every line

  ghost predicate Shaped(d: Draft, step: nat, i: nat) {
    && (if i == 0 then d.lines == [] else IsBlockLines(Shapes(d.lines), step))
    && (d.hint.Some? ==>
          && 0 < d.hint.value && d.hint.value + 1 < |d.lines|
          && d.lines[d.hint.value] == RunHeader(step + 2) && d.lines[d.hint.value + 1] == RunnerLine(step + 4))
  }

  lemma {:induction false} ShapedKeep(b: seq<Line>, d: Draft, step: nat, i: nat, l: Line, isName: bool)
    requires i < |b| && IsBlockLines(Shapes(b), step) && Shaped(d, step, i) && l.shape == b[i].shape
    ensures Shaped(d.Keep(l, i, isName), step, i + 1)
  {
    assert Shapes(b)[i] == b[i].shape;
    assert Shapes(d.lines + [l])[0] == if i == 0 then l.shape else Shapes(d.lines)[0];
  }

  lemma {:induction false} ShapedRun(d: Draft, step: nat, i: nat, j: nat)
    requires 0 < i < j && Shaped(d, step, i)
    ensures Shaped(d.Run(step), step, j)
  {
    var u := d.Run(step).lines;
    assert u[|d.lines|] == RunHeader(step + 2) && u[|d.lines| + 1] == RunnerLine(step + 4);
    assert Shapes(u)[0] == Shapes(d.lines)[0];
    assert forall k | 0 < k < |d.lines| :: Shapes(u)[k] == Shapes(d.lines)[k];
  }

  lemma {:induction false} CopyIsKeep(b: seq<Line>, d: Draft, i: nat, e: nat)
    requires i < e <= |b|
    ensures d.Copy(b[i..e], i) == d.Keep(b[i], i, false).Copy(b[i + 1..e], i + 1)
  {
    assert b[i..e] == [b[i]] + b[i + 1..e];
    assert seq(e - i, k => i + k) == [i] + seq(e - i - 1, k => i + 1 + k);
  }

  lemma {:induction false} CopyIsShaped(b: seq<Line>, step: nat, i: nat, e: nat, d: Draft)
    requires i <= e <= |b| && IsBlockLines(Shapes(b), step) && Shaped(d, step, i)
    ensures Shaped(d.Copy(b[i..e], i), step, e)
    decreases e - i
  {
    if i < e {
      ShapedKeep(b, d, step, i, b[i], false);
      CopyIsShaped(b, step, i + 1, e, d.Keep(b[i], i, false));
      CopyIsKeep(b, d, i, e);
    } else {
      assert d.Copy(b[i..e], i) == d;
    }
  }

  lemma {:induction false} CopyIsTraced(b: seq<Line>, i: nat, e: nat, d: Draft)
    requires i <= e <= |b| && Kept(b, d.lines, d.src, i)
    ensures var c := d.Copy(b[i..e], i); Kept(b, c.lines, c.src, e)
    decreases e - i
  {
    if i < e {
      KeepLine(b, d.lines, d.src, i, b[i]);
      CopyIsTraced(b, i + 1, e, d.Keep(b[i], i, false));
      CopyIsKeep(b, d, i, e);
    } else {
      assert d.Copy(b[i..e], i) == d;
    }
  }

  lemma {:induction false} NextIsShaped(b: seq<Line>, step: nat, i: nat, d: Draft)
    requires i < |b| && IsBlockLines(Shapes(b), step) && WellRead(b[i]) && Shaped(d, step, i)
    ensures Shaped(NextDraft(b, step, i, d), step, NextLine(b, i))
  {
    assert Shapes(b)[i] == b[i].shape;
    if Named(b[i].text) {
      SuffixedKeepsShape(b[i]);
      ShapedKeep(b, d, step, i, Suffixed(b[i]), true);
    } else if b[i].shape.Env() {
      CopyIsShaped(b, step, i, NextLine(b, i), d);
    } else if b[i].shape.Run() {
      ShapedRun(d, step, i, NextLine(b, i));
    } else {
      ShapedKeep(b, d, step, i, b[i], false);
    }
  }

  lemma {:induction false} RewriteIsShaped(b: seq<Line>, step: nat, i: nat, d: Draft)
    requires i <= |b| && IsBlockLines(Shapes(b), step) && AllRead(b) && Shaped(d, step, i)
    ensures Shaped(Rewrite(b, step, i, d), step, |b|)
    decreases |b| - i
  {
    if i < |b| {
      NextIsShaped(b, step, i, d);
      RewriteIsShaped(b, step, NextLine(b, i), NextDraft(b, step, i, d));
    }
  }

  lemma {:induction false} NextIsTraced(b: seq<Line>, step: nat, i: nat, d: Draft)
    requires i < |b| && Kept(b, d.lines, d.src, i)
    ensures var n := NextDraft(b, step, i, d); Kept(b, n.lines, n.src, NextLine(b, i))
  {
    if Named(b[i].text) {
      KeepLine(b, d.lines, d.src, i, Suffixed(b[i]));
    } else if b[i].shape.Env() {
      CopyIsTraced(b, i, NextLine(b, i), d);
    } else if b[i].shape.Run() {
      var j := NextLine(b, i);
      assert InRunText(Shapes(b), i, j - 1);
      DropLines(b, d.lines, d.src, i, j, RunHeader(step + 2), RunnerLine(step + 4));
    } else {
      KeepLine(b, d.lines, d.src, i, b[i]);
    }
  }

  lemma {:induction false} RewriteIsTraced(b: seq<Line>, step: nat, i: nat, d: Draft)
    requires i <= |b| && Kept(b, d.lines, d.src, i)
    ensures var r := Rewrite(b, step, i, d); Kept(b, r.lines, r.src, |b|)
    decreases |b| - i
  {
    if i < |b| {
      NextIsTraced(b, step, i, d);
      RewriteIsTraced(b, step, NextLine(b, i), NextDraft(b, step, i, d));
    }
  }

  lemma {:induction false} NextIsRead(b: seq<Line>, step: nat, i: nat, d: Draft)
    requires i < |b| && AllRead(b) && AllRead(d.lines)
    ensures AllRead(NextDraft(b, step, i, d).lines)
  {
    hide KindOf, RunsPytest, AppendSuffix;
  }

  lemma {:induction false} RewriteIsRead(b: seq<Line>, step: nat, i: nat, d: Draft)
    requires i <= |b| && AllRead(b) && AllRead(d.lines)
    ensures AllRead(Rewrite(b, step, i, d).lines)
    decreases |b| - i
  {
    if i < |b| {
      NextIsRead(b, step, i, d);
      RewriteIsRead(b, step, NextLine(b, i), NextDraft(b, step, i, d));
    }
  }

  // ---------------------------------------------------------------- the env flag

  predicate HasText(s: string, part: string) {
    exists i: nat | i <= |s| :: part <= s[i..]
  }

  /** The first env key at or after line `i`. */
  function FirstEnv(u: seq<Line>, i: nat): (e: nat)
    requires i <= |u|
    ensures i <= e <= |u| && (e < |u| ==> u[e].shape.Env())
    decreases |u| - i
  {
    if i == |u| || u[i].shape.Env() then i else FirstEnv(u, i + 1)
  }

  /** Where the env mapping of depth `indent` ends, or the line that already sets the flag. */
  function FlagSpot(u: seq<Line>, i: nat, indent: nat): (k: nat)
    requires i <= |u|
    ensures i <= k <= |u| && (forall y | i <= y < k :: Deeper(u[y], indent))
    decreases |u| - i
  {
    if i == |u| then i
    else if u[i].shape.Blank() then FlagSpot(u, i + 1, indent)
    else if u[i].Indent() <= indent || HasText(u[i].text, ENV_FLAG) then i
    else FlagSpot(u, i + 1, indent)
  }

  predicate SetsFlag(u: seq<Line>, k: nat, indent: nat) {
    k < |u| && !u[k].shape.Blank() && indent < u[k].Indent() && HasText(u[k].text, ENV_FLAG)
  }

  function InsertLines(u: seq<Line>, p: nat, ls: seq<Line>): seq<Line>
    requires p <= |u|
  {
    u[..p] + ls + u[p..]
  }

  /** The lines with an env mapping that sets the flag. */
  function WithEnv(u: seq<Line>, step: nat, hint: Option<nat>): seq<Line> {
    var e := FirstEnv(u, 0);
    if e == |u| then
      InsertLines(u, if hint.Some? && hint.value <= |u| then hint.value
          else |u|, [EnvLine(step + 2), EnvFlagLine(step + 4)])
    else
      var k := FlagSpot(u, e + 1, u[e].Indent());
      if SetsFlag(u, k, u[e].Indent()) then u else InsertLines(u, k, [EnvFlagLine(u[e].Indent() + 2)])
  }

  method EnsureEnvBlock(lines: seq<Line>, step: nat, hint: Option<nat>) returns (u: seq<Line>)
    requires hint.Some? ==> hint.value <= |lines|
    ensures u == WithEnv(lines, step, hint)
  {
    hide Read, HasText, EnvLine, EnvFlagLine, ENV_FLAG, ENV_FLAG_LINE, ENV_KEY;
    var e := 0;
    while e < |lines| && !lines[e].shape.Env()
      invariant e <= |lines| && FirstEnv(lines, e) == FirstEnv(lines, 0)
    {
      e := e + 1;
    }
    if e == |lines| {
      var p := if hint.Some? then hint.value else |lines|;
      return InsertLines(lines, p, [EnvLine(step + 2), EnvFlagLine(step + 4)]);
    }
    var indent := lines[e].Indent();
    var idx, insertAt, found := e + 1, e + 1, false;
    while idx < |lines|
      invariant e < idx == insertAt <= |lines|
      invariant FlagSpot(lines, idx, indent) == FlagSpot(lines, e + 1, indent)
    {
      var line := lines[idx];
      if line.shape.Blank() {
        idx := idx + 1;
        insertAt := idx;
        continue;
      }
      if line.Indent() <= indent {
        break;
      }
      if HasText(line.text, ENV_FLAG) {
        found := true;
        break;
      }
      insertAt := idx + 1;
      idx := idx + 1;
    }
    if found {
      return lines;
    }
    return InsertLines(lines, insertAt, [EnvFlagLine(indent + 2)]);
  }

  /** The flag is set inside an env mapping. */
  ghost predicate EnvFlagged(u: seq<Line>) {
    exists e: nat, k: nat :: Under(Shapes(u), e, k) && u[e].shape.Env() && HasText(u[k].text, ENV_FLAG)
  }

  /** The draft of a step, with a name line if it had none. */
  function NamedDraft(b: seq<Line>, step: nat): seq<Line> {
    var d := Rewrite(b, step, 0, BLANK);
    if d.named then d.lines else [NameLine(step, NEW_NAME)] + d.lines
  }

  /** The lines that replace the step `b`. */
  function RewriteLines(b: seq<Line>, step: nat): seq<Line> {
    WithEnv(NamedDraft(b, step), step, Rewrite(b, step, 0, BLANK).hint)
  }

  method RewriteStep(b: seq<Line>, step: nat) returns (u: seq<Line>)
    requires IsBlockLines(Shapes(b), step) && AllRead(b)
    ensures u == RewriteLines(b, step)
  {
    hide Read;
    var lines, nameSeen, hint, _ := RewriteBody(b, step);
    RewriteIsShaped(b, step, 0, BLANK);
    if !nameSeen {
      lines := [NameLine(step, NEW_NAME)] + lines;
    }
    u := EnsureEnvBlock(lines, step, hint);
  }
}
