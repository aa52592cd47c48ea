/** The support steps of a prepared job are found by their names, whatever is rewritten afterwards. */
module SupportNames {
  import opened PyStrings
  import opened StepBlocks
  import opened WorkflowLines
  import opened StepNames
  import opened StepRewriter
  import opened RewrittenSteps
  import opened JobMatrix
  import opened TextPatcher
  import opened WorkflowPatcher
  import opened PlainRuns
  import opened JobLayouts
  import opened JobHeaders
  import opened JobPreparation
  import opened LaidOutJobs
  import opened LaidOutRuns

  // ---------------------------------------------------------------- reading the name back

  lemma {:induction false} NothingCut(s: string)
    requires forall k | 0 <= k < |s| :: s[k] != '#' && s[k] != '&'
    ensures CutComment(s) == s && CutAnchor(s) == s
  {
    if s != "" {
      NothingCut(s[1..]);
      assert s == [s[0]] + s[1..];
    }
  }

  ghost predicate PlainName(name: string) {
    && name != "" && !Space(name[0]) && !Space(name[|name| - 1]) && name[0] != '\'' && name[0] != '"'
    && forall k | 0 <= k < |name| :: name[k] != '#' && name[k] != '&'
  }

  lemma {:induction false} HeaderOfNameLine(name: string)
    ensures HeaderLength(NameText(name)) == Some(7) && NameText(name)[7..] == " " + name
  {
    var s := NameText(name);
    assert s[1..] == " " + ("name: " + name);
    LeadingSpacesAre(" ", "name: " + name);
    assert s[2..] == "name: " + name && "name: " == "name:" + " ";
    assert "name:" <= s[2..];
  }

  lemma {:induction false} PlainStrips(name: string)
    requires PlainName(name)
    ensures Lstrip(" " + name) == name && Strip(name) == name && Unquote(name) == name
  {
    hide Rstrip, LeadingSpaces, Strip;
    LeadingSpacesAre(" ", name);
    assert (" " + name)[1..] == name;
    StripIs("", name, "");
    assert "" + name + "" == name;
  }

  lemma {:induction false} NameLineNames(name: string)
    requires PlainName(name)
    ensures NameValue(NameText(name)) == Some(name)
  {
    hide HeaderLength, CutComment, CutAnchor, Lstrip, Strip, Unquote;
    HeaderOfNameLine(name);
    NothingCut(name);
    PlainStrips(name);
  }

  lemma {:induction false} SupportNamesArePlain()
    ensures PlainName(INSTALL_STEP_NAME) && PlainName(SELECT_STEP_NAME) && INSTALL_STEP_NAME != SELECT_STEP_NAME
  {
    assert INSTALL_STEP_NAME[0] == 'I' && SELECT_STEP_NAME[0] == 'S';
  }

  // ---------------------------------------------------------------- the lines a scan stops at

  /** A scan for steps from line `i` looks at line `p`. */
  predicate Visits(lines: seq<Line>, i: nat, p: nat)
    decreases p - i
  {
    i == p || (i < p && var s := StepAt(lines, i);
        if s.None? then Visits(lines, i + 1, p) else Visits(lines, s.value.end, p))
  }

  lemma {:induction false} VisitsOn(lines: seq<Line>, i: nat, p: nat, q: nat)
    requires Visits(lines, i, p) && Visits(lines, p, q)
    ensures Visits(lines, i, q)
    decreases p - i
  {
    hide StepAt;
    if i < p {
      VisitsForward(lines, p, q);
      var s := StepAt(lines, i);
      VisitsOn(lines, if s.None? then i + 1 else s.value.end, p, q);
    }
  }

  lemma {:induction false} VisitsForward(lines: seq<Line>, i: nat, p: nat)
    requires Visits(lines, i, p)
    ensures i <= p
  {
  }

  lemma {:induction false} VisitsBetween(lines: seq<Line>, i: nat, p: nat, q: nat)
    requires Visits(lines, i, p) && Visits(lines, i, q) && p <= q
    ensures Visits(lines, p, q)
    decreases p - i
  {
    hide StepAt;
    if i < p {
      var s := StepAt(lines, i);
      var next := if s.None? then i + 1 else s.value.end;
      VisitsForward(lines, next, p);
      VisitsBetween(lines, next, p, q);
    }
  }

  /** The step that a scan stops at was looked at. */
  lemma {:induction false} FirstBlockVisited(lines: seq<Line>, i: nat, f: nat)
    requires i <= f < |lines| && forall d: nat | i <= d < f :: !Covers(Shapes(lines), d, f)
    ensures Visits(lines, i, f)
    decreases f - i
  {
    hide StepEnd, Covers, Shapes;
    if i < f {
      var s := StepAt(lines, i);
      if s.Some? && f < s.value.end {
        BlockCovers(Shapes(lines), s.value.Block(), f);
      }
      FirstBlockVisited(lines, if s.None? then i + 1 else s.value.end, f);
    }
  }

  predicate StepNamedAt(lines: seq<Line>, p: nat, name: string) {
    StepAt(lines, p).Some? && StepName(StepAt(lines, p).value.lines) == Some(name)
  }

  lemma {:induction false} VisitedName(lines: seq<Line>, i: nat, end: nat, p: nat, name: string)
    requires Visits(lines, i, p) && p < end && StepNamedAt(lines, p, name) && name != ""
    ensures name in NamesOfSteps(lines, i, end)
    decreases p - i
  {
    hide StepAt, StepName;
    VisitsForward(lines, i, p);
    if i < p {
      var s := StepAt(lines, i);
      VisitedName(lines, if s.None? then i + 1 else s.value.end, end, p, name);
    }
  }

  lemma {:induction false} NameVisited(lines: seq<Line>, i: nat, end: nat, name: string) returns (p: nat)
    requires name in NamesOfSteps(lines, i, end)
    ensures i <= p < end && Visits(lines, i, p) && StepNamedAt(lines, p, name) && name != ""
    decreases end - i
  {
    hide StepAt, StepName;
    var s := StepAt(lines, i);
    if s.Some? && StepName(s.value.lines) == Some(name) && name != "" {
      p := i;
    } else {
      p := NameVisited(lines, if s.None? then i + 1 else s.value.end, end, name);
    }
  }

  // ---------------------------------------------------------------- replacing steps

  /** `u` is `a` with the lines `x..y` replaced by `n` lines; line `x` opens a step of the same depth in both. */
  ghost predicate Replaced(a: seq<Line>, u: seq<Line>, x: nat, y: nat, n: nat) {
    && x <= y <= |a| && x < |a| && x < |u| && SameUpTo(a, u, x) && SameFrom(a, y, u, x + n)
    && a[x].shape.Dash() && u[x].shape.Dash() && u[x].Indent() == a[x].Indent()
  }

  lemma {:induction false} EndBefore(a: seq<Line>, u: seq<Line>, x: nat, i: nat, step: nat)
    requires SameUpTo(a, u, x) && x < |a| && x < |u| && a[x].shape.Dash() && u[x].shape.Dash()
    requires u[x].Indent() == a[x].Indent()
    requires i <= x && StepEnd(a, i, step) <= x
    ensures StepEnd(u, i, step) == StepEnd(a, i, step)
    decreases x - i
  {
    if i < x && !a[i].shape.Ends(step) {
      EndBefore(a, u, x, i + 1, step);
    }
  }

  lemma {:induction false} StepBefore(a: seq<Line>, u: seq<Line>, x: nat, y: nat, n: nat, p: nat)
    requires Replaced(a, u, x, y, n) && p < x && (StepAt(a, p).Some? ==> StepAt(a, p).value.end <= x)
    ensures StepAt(u, p) == StepAt(a, p)
  {
    hide SameFrom;
    if StepAt(a, p).Some? {
      EndBefore(a, u, x, p + 1, a[p].Indent());
      hide StepEnd;
      assert u[p..StepAt(a, p).value.end] == a[p..StepAt(a, p).value.end];
    }
  }

  lemma {:induction false} VisitsBefore(a: seq<Line>, u: seq<Line>, x: nat, y: nat, n: nat, i: nat, p: nat)
    requires Replaced(a, u, x, y, n) && Visits(a, i, p) && Visits(a, p, x)
    ensures Visits(u, i, p) && (p < x ==> StepAt(u, p) == StepAt(a, p))
    decreases p - i
  {
    hide StepAt, Replaced;
    VisitsForward(a, p, x);
    VisitsForward(a, i, p);
    VisitsOn(a, i, p, x);
    if i < x {
      var s := StepAt(a, i);
      var next := if s.None? then i + 1 else s.value.end;
      VisitsForward(a, next, x);
      StepBefore(a, u, x, y, n, i);
      if i < p {
        VisitsForward(a, next, p);
        VisitsBefore(a, u, x, y, n, next, p);
      }
    }
  }

  lemma {:induction false} VisitsShift(a: seq<Line>, i: nat, b: seq<Line>, k: nat, x: nat, p: nat)
    requires SameFrom(a, i, b, k) && i <= x && Visits(a, x, p)
    ensures x <= p && Visits(b, x - i + k, p - i + k)
    decreases p - x
  {
    hide StepAt, SameFrom;
    VisitsForward(a, x, p);
    if x < p {
      StepShifts(a, i, b, k, x);
      var s := StepAt(a, x);
      VisitsShift(a, i, b, k, if s.None? then x + 1 else s.value.end, p);
    }
  }

  /** Where a line outside the replaced ones is afterwards. */
  function PlaceOf(x: nat, y: nat, n: nat, p: nat): int { if p < x then p else p - y + x + n }

  /** A step outside the replaced ones is still met, with the same lines. */
  lemma {:induction false} StepStaysMet(a: seq<Line>, u: seq<Line>, job: nat, x: nat, y: nat, n: nat, p: nat)
    requires Replaced(a, u, x, y, n) && Visits(a, job, x) && Visits(a, x, y) && Visits(u, x, x + n)
    requires Visits(a, job, p) && (p < x || y <= p) && StepAt(a, p).Some?
    ensures var q := PlaceOf(x, y, n, p);
            && 0 <= q && Visits(u, job, q) && StepAt(u, q).Some? && StepAt(u, q).value.lines == StepAt(a, p).value.lines
  {
    hide StepAt, Visits, SameFrom, SameUpTo;
    VisitsItself(a, x);
    VisitsForward(a, job, x);
    VisitsForward(a, x, y);
    VisitsBefore(a, u, x, y, n, job, x);
    if p < x {
      VisitsBetween(a, job, p, x);
      VisitsBefore(a, u, x, y, n, job, p);
    } else {
      VisitsOn(a, job, x, y);
      VisitsBetween(a, job, y, p);
      VisitsShift(a, y, u, x + n, y, p);
      StepShifts(a, y, u, x + n, p);
      StepByForm(StepAt(a, p).value, x + n - y);
      VisitsOn(u, job, x, x + n);
      VisitsOn(u, job, x + n, p - y + x + n);
    }
  }

  lemma {:induction false} VisitsItself(lines: seq<Line>, p: nat)
    ensures Visits(lines, p, p)
  {
  }

  lemma {:induction false} VisitsStep(lines: seq<Line>, s: Step)
    requires StepAt(lines, s.start) == Some(s)
    ensures Visits(lines, s.start, s.end)
  {
    hide StepEnd;
    VisitsItself(lines, s.end);
  }

  lemma {:induction false} StepEndIs(lines: seq<Line>, i: nat, e: nat, step: nat)
    requires i <= e <= |lines| && (forall k | i <= k < e :: !lines[k].shape.Ends(step))
    requires (e < |lines| ==> lines[e].shape.Ends(step))
    ensures StepEnd(lines, i, step) == e
    decreases e - i
  {
    if i < e {
      StepEndIs(lines, i + 1, e, step);
    }
  }

  // ---------------------------------------------------------------- a step that keeps its name

  /** Line `p` opens a step of the job with the given name; behind the search, one that does not run pytest. */
  ghost predicate HeldAt(lines: seq<Line>, start: nat, end: nat, search: nat, name: string, p: nat) {
    && Visits(lines, start, p) && p < end && StepNamedAt(lines, p, name)
    && (p < search || Cold(Shapes(StepAt(lines, p).value.lines)))
  }

  ghost predicate Held(lines: seq<Line>, start: nat, end: nat, search: nat, name: string) {
    exists p: nat :: HeldAt(lines, start, end, search, name, p)
  }

  lemma {:induction false} HeldIsNamed(lines: seq<Line>, start: nat, end: nat, search: nat, name: string)
    requires Held(lines, start, end, search, name) && name != ""
    ensures name in NamesOfSteps(lines, start, end)
  {
    hide Visits, StepNamedAt, Cold, NamesOfSteps;
    var p: nat :| HeldAt(lines, start, end, search, name, p);
    VisitedName(lines, start, end, p, name);
  }

  lemma {:induction false} HeldFurther(lines: seq<Line>, start: nat, end: nat, search: nat, name: string, further: nat)
    requires Held(lines, start, end, search, name) && search <= further
    ensures Held(lines, start, end, further, name)
  {
    hide Visits, StepNamedAt, Cold;
    var p: nat :| HeldAt(lines, start, end, search, name, p);
    assert HeldAt(lines, start, end, further, name, p);
  }

  /** A step with the name stays one when other steps are replaced. */
  lemma {:induction false} HeldStays(a: seq<Line>, u: seq<Line>, job: nat, end: nat, search: nat, name: string,
                                     x: nat, y: nat, n: nat, further: nat, p: nat)
    requires HeldAt(a, job, end, search, name, p) && (p < x || y <= p)
    requires Replaced(a, u, x, y, n) && Visits(a, job, x) && Visits(a, x, y) && Visits(u, x, x + n)
    requires 0 <= end - y + x + n && x <= end - y + x + n && (p < search ==> PlaceOf(x, y, n, p) < further)
    ensures Held(u, job, end - y + x + n, further, name)
  {
    hide StepAt, Visits, Replaced, Cold, StepName;
    StepStaysMet(a, u, job, x, y, n, p);
    var q: nat := PlaceOf(x, y, n, p);
    assert HeldAt(u, job, end - y + x + n, further, name, q);
  }

  /** The lines that a scan looks at are not inside a step it looks at. */
  lemma {:induction false} VisitedAside(lines: seq<Line>, job: nat, s: Step, p: nat)
    requires Visits(lines, job, s.start) && StepAt(lines, s.start) == Some(s) && Visits(lines, job, p)
    ensures p <= s.start || s.end <= p
  {
    hide StepEnd;
    if s.start < p {
      VisitsBetween(lines, job, s.start, p);
      VisitsForward(lines, s.end, p);
    }
  }

  lemma {:induction false} VisitsEnd(lines: seq<Line>, i: nat)
    requires i <= |lines|
    ensures Visits(lines, i, |lines|)
    decreases |lines| - i
  {
    hide StepEnd;
    if i < |lines| {
      var s := StepAt(lines, i);
      VisitsEnd(lines, if s.None? then i + 1 else s.value.end);
    }
  }

  lemma {:induction false} AlignedIsVisited(lines: seq<Line>, i: nat, f: nat)
    requires i <= f <= |lines| && Aligned(Shapes(lines), f)
    ensures Visits(lines, i, f)
  {
    if f < |lines| {
      AlignedForm(Shapes(lines), f);
      FirstBlockVisited(lines, i, f);
    } else {
      VisitsEnd(lines, i);
    }
  }

  lemma {:induction false} AlignedForm(t: Text, f: nat)
    requires Aligned(t, f)
    ensures forall d: nat | d < f :: !Covers(t, d, f)
  {
  }

  /** A step with the name stays one when a step that runs pytest is rewritten. */
  lemma {:induction false} HeldRewrite(lines: seq<Line>, job: nat, end: nat, t: Step, name: string)
    requires AllRead(lines) && Aligned(Shapes(lines), t.start) && StepAt(lines, t.start) == Some(t)
    requires !Cold(Shapes(t.lines))
    requires job <= t.start && t.end <= end && Held(lines, job, end, t.start, name)
    ensures var ls := RewriteLines(t.lines, t.indent);
            Held(Rewriting(lines, t), job, end - t.end + t.start + |ls|, t.start + |ls|, name)
  {
    hide *;
    var p := HeldForm(lines, job, end, t.start, name);
    var ls, u := RewriteLines(t.lines, t.indent), Rewriting(lines, t);
    StepForm(lines, t);
    RewritingForm(lines, t);
    RewrittenAligned(lines, t);
    AlignedIsVisited(lines, job, t.start);
    VisitsStep(lines, t);
    AlignedIsVisited(u, t.start, t.start + |ls|);
    RewriteReplaces(lines, t);
    HeldParts(lines, job, end, t.start, name, p);
    VisitedAside(lines, job, t, p);
    PlaceForm(t.start, t.end, |ls|, p);
    HeldStays(lines, u, job, end, t.start, name, t.start, t.end, |ls|, t.start + |ls|, p);
  }

  lemma {:induction false} HeldForm(lines: seq<Line>, start: nat, end: nat, search: nat, name: string) returns (p: nat)
    requires Held(lines, start, end, search, name)
    ensures HeldAt(lines, start, end, search, name, p)
  {
    hide HeldAt;
    p :| HeldAt(lines, start, end, search, name, p);
  }

  lemma {:induction false} HeldParts(lines: seq<Line>, start: nat, end: nat, search: nat, name: string, p: nat)
    requires HeldAt(lines, start, end, search, name, p)
    ensures Visits(lines, start, p) && p < end && StepNamedAt(lines, p, name) && StepAt(lines, p).Some?
    ensures p < search || Cold(Shapes(StepAt(lines, p).value.lines))
  {
    hide Visits, StepAt, Cold, StepName;
  }

  lemma {:induction false} PlaceForm(x: nat, y: nat, n: nat, p: nat)
    ensures PlaceOf(x, y, n, p) == if p < x then p else p - y + x + n
  {
  }

  lemma {:induction false} RewriteReplaces(lines: seq<Line>, t: Step)
    requires AllRead(lines) && StepAt(lines, t.start) == Some(t)
    ensures Replaced(lines, Rewriting(lines, t), t.start, t.end, |RewriteLines(t.lines, t.indent)|)
  {
    StepIsBlock(lines, t);
    StepForm(lines, t);
    RewrittenIsStep(t.lines, t.indent);
    RewritingForm(lines, t);
    var ls, u := RewriteLines(t.lines, t.indent), Rewriting(lines, t);
    ShapedStart(ls, t.indent);
    hide *;
    SplicedAt(lines, t.start, t.end, ls, u);
    ReplacedIf(lines, u, t.start, t.end, |ls|);
  }

  lemma {:induction false} ShapedStart(ls: seq<Line>, indent: nat)
    requires StepShaped(Shapes(ls), indent)
    ensures ls != [] && ls[0].shape.Dash() && ls[0].Indent() == indent
  {
    assert Shapes(ls)[0] == ls[0].shape;
  }

  lemma {:induction false} ReplacedIf(a: seq<Line>, u: seq<Line>, x: nat, y: nat, n: nat)
    requires x <= y <= |a| && x < |a| && x < |u| && SameUpTo(a, u, x) && SameFrom(a, y, u, x + n)
    requires a[x].shape.Dash() && u[x].shape.Dash() && u[x].Indent() == a[x].Indent()
    ensures Replaced(a, u, x, y, n)
  {
    hide SameUpTo, SameFrom;
  }

  // ---------------------------------------------------------------- the names of a job before it is prepared

  /** No block reaches a line that a scan from such a line looks at. */
  lemma {:induction false} VisitedAligned(lines: seq<Line>, i: nat, p: nat)
    requires Aligned(Shapes(lines), i) && Visits(lines, i, p) && p <= |lines|
    ensures Aligned(Shapes(lines), p)
    decreases p - i
  {
    hide StepEnd;
    var t := Shapes(lines);
    VisitsForward(lines, i, p);
    if i < p {
      var s := StepAt(lines, i);
      var next := if s.None? then i + 1 else s.value.end;
      VisitsForward(lines, next, p);
      if s.None? {
        LinePassed(t, i);
      } else {
        BlockPassed(t, s.value.Block());
      }
      VisitedAligned(lines, next, p);
    }
  }

  lemma {:induction false} LinePassed(t: Text, i: nat)
    requires Aligned(t, i) && i < |t| && !t[i].Dash()
    ensures Aligned(t, i + 1)
  {
    var j := i + 1;
    forall d: nat | d < j
      ensures !Covers(t, d, j)
    {
      if Covers(t, d, j) {
        CoverPrefix(t, d, j, i);
      }
    }
  }

  lemma {:induction false} BlockPassed(t: Text, b: StepBlock)
    requires Aligned(t, b.start) && IsBlock(t, b)
    ensures Aligned(t, b.end)
  {
    forall d: nat | d < b.end
      ensures !Covers(t, d, b.end)
    {
      if b.start <= d {
        NestedEnds(t, b, d, b.end);
      } else if Covers(t, d, b.end) {
        CoverPrefix(t, d, b.end, b.start);
      }
    }
  }

  /** No block opened before a job reaches its key, if none reaches a step of the job. */
  lemma {:induction false} JobStartAligned(lines: seq<Line>, j: Job, f: nat)
    requires AllRead(lines) && IsJob(lines, j) && j.steps < f < j.end && Aligned(Shapes(lines), f)
    ensures Aligned(Shapes(lines), j.start)
  {
    KeyIsNotBlank(lines, j);
    hide AllRead, JobKey, OpensSteps;
    var t := Shapes(lines);
    forall d: nat | d < j.start
      ensures !Covers(t, d, j.start)
    {
      if Covers(t, d, j.start) {
        CoverIntoJob(t, d, j.start, f);
      }
    }
  }

  lemma {:induction false} CoverIntoJob(t: Text, d: nat, start: nat, f: nat)
    requires d < start < f < |t| && Covers(t, d, start) && !t[start].Blank()
    requires forall k | start < k <= f :: t[k].Blank() || t[start].indent < t[k].indent
    ensures Covers(t, d, f)
  {
    assert t[d].indent <= t[start].indent;
  }

  /** No step from line `f` on that runs pytest has the name. */
  ghost predicate Unclaimed(u: seq<Line>, f: nat, name: string) {
    forall p: nat | f <= p && PytestStep(u, p) :: !StepNamedAt(u, p, name)
  }

  /** A name that a job has is that of a step before `f`, or of one that does not run pytest. */
  lemma {:induction false} NameIsHeld(u: seq<Line>, k: Job, f: nat, name: string)
    requires AllRead(u) && IsJob(u, k) && k.steps < f < k.end && Aligned(Shapes(u), f) && Unclaimed(u, f, name)
    requires name in NamesOfSteps(u, k.start, k.end)
    ensures Held(u, k.start, k.end, f, name)
  {
    hide *;
    JobForm(u, k);
    var p := NameVisited(u, k.start, k.end, name);
    NamedForm(u, p, name);
    if f <= p && !Cold(Shapes(StepAt(u, p).value.lines)) {
      JobStartAligned(u, k, f);
      VisitedAligned(u, k.start, p);
      PytestStepIf(u, p);
      UnclaimedForm(u, f, name, p);
    }
    HeldIf(u, k.start, k.end, f, name, p);
  }

  lemma {:induction false} NamedForm(u: seq<Line>, p: nat, name: string)
    requires StepNamedAt(u, p, name)
    ensures StepAt(u, p).Some? && StepName(StepAt(u, p).value.lines) == Some(name) && p < |u|
  {
    hide StepEnd, StepName;
  }

  lemma {:induction false} UnclaimedForm(u: seq<Line>, f: nat, name: string, p: nat)
    requires Unclaimed(u, f, name) && f <= p && PytestStep(u, p)
    ensures !StepNamedAt(u, p, name)
  {
    hide PytestStep, StepNamedAt;
  }

  lemma {:induction false} HeldIf(lines: seq<Line>, start: nat, end: nat, search: nat, name: string, p: nat)
    requires Visits(lines, start, p) && p < end && StepNamedAt(lines, p, name)
    requires p < search || Cold(Shapes(StepAt(lines, p).value.lines))
    ensures Held(lines, start, end, search, name)
  {
    hide Visits, StepNamedAt, Cold;
    assert HeldAt(lines, start, end, search, name, p);
  }

  // ---------------------------------------------------------------- names over a refresh

  /** A refresh leaves the install step its name: a name line stands before the script, or none in it. */
  ghost predicate NameSpared(u: seq<Line>, k: Job) {
    InstallRefresh(u, k.Bounds()).Some? ==>
      var b := StepNamed(u, k.start, k.end, INSTALL_STEP_NAME).value.lines;
      Outdated(b).Some? && var o := Outdated(b).value; (StepName(b[..o.0]).Some? || StepName(b[o.0..o.1]).None?)
  }

  lemma {:induction false} NameOfBoth(a: seq<Line>, b: seq<Line>)
    ensures StepName(a + b) == if StepName(a).Some? then StepName(a) else StepName(b)
    decreases |a|
  {
    hide NameValue;
    if a == [] {
      assert a + b == b;
    } else {
      assert (a + b)[1..] == a[1..] + b;
      NameOfBoth(a[1..], b);
    }
  }

  lemma {:induction false} StartsWithNoName(s: string)
    requires s != "" && s[0] != '-' && s[0] != 'n'
    ensures NameValue(s).None?
  {
    assert "name:"[0] == 'n';
    assert s[0..] == s;
  }

  lemma {:induction false} CommandStarts()
    ensures RUN_HEADER != "" && RUN_HEADER[0] == 'r'
    ensures (forall k | 0 <= k < |INSTALL_RUN_COMMANDS| ::
            INSTALL_RUN_COMMANDS[k] != "" && INSTALL_RUN_COMMANDS[k][0] == 'p')
    ensures |INSTALL_RUN_COMMANDS| == 4
  {
  }

  lemma {:induction false} InstallRunIsNameless(indent: nat)
    ensures StepName(InstallRun(indent)).None?
  {
    CommandStarts();
    hide NameValue, RUN_HEADER, INSTALL_RUN_COMMANDS, StepName, RunsPytest, KindOf;
    var ls := InstallRun(indent);
    assert ls[0].text == RUN_HEADER;
    forall k: nat | k < |ls|
      ensures NameValue(ls[k].text).None?
    {
      if k > 0 {
        assert ls[k] == Indented(INSTALL_RUN_COMMANDS, indent + 2)[k - 1]
               == Read(indent + 2, INSTALL_RUN_COMMANDS[k - 1]);
      }
      StartsWithNoName(ls[k].text);
    }
    NoneNamed(ls);
  }

  lemma {:induction false} NoneNamed(ls: seq<Line>)
    requires forall k: nat | k < |ls| :: NameValue(ls[k].text).None?
    ensures StepName(ls).None?
    decreases |ls|
  {
    hide NameValue;
    if ls != [] {
      forall k: nat | k < |ls[1..]|
        ensures NameValue(ls[1..][k].text).None?
      {
        assert ls[1..][k] == ls[k + 1];
      }
      NoneNamed(ls[1..]);
    }
  }

  /** The lines of the install step after the refresh. */
  function RefreshedBlock(b: seq<Line>, q: nat, p: nat): seq<Line>
    requires q < p <= |b|
  {
    b[..q] + InstallRun(b[q].Indent()) + b[p..]
  }

  lemma {:induction false} RefreshedName(b: seq<Line>, q: nat, p: nat)
    requires q < p <= |b| && (StepName(b[..q]).Some? || StepName(b[q..p]).None?)
    ensures StepName(RefreshedBlock(b, q, p)) == StepName(b)
  {
    hide StepName, InstallRun;
    InstallRunIsNameless(b[q].Indent());
    NameOfBoth(b[..q], InstallRun(b[q].Indent()) + b[p..]);
    NameOfBoth(InstallRun(b[q].Indent()), b[p..]);
    NameOfBoth(b[..q], b[q..p] + b[p..]);
    NameOfBoth(b[q..p], b[p..]);
    assert b[..q] + (b[q..p] + b[p..]) == b;
    assert RefreshedBlock(b, q, p) == b[..q] + (InstallRun(b[q].Indent()) + b[p..]);
  }

  lemma {:induction false} StepNamedVisited(lines: seq<Line>, i: nat, end: nat, name: string)
    requires StepNamed(lines, i, end, name).Some?
    ensures Visits(lines, i, StepNamed(lines, i, end, name).value.start)
    decreases end - i
  {
    hide StepAt, NormalizedName;
    StepNamedNext(lines, i, end, name);
    var s := StepAt(lines, i);
    if s.None? {
      StepNamedVisited(lines, i + 1, end, name);
    } else if NormalizedName(s.value.lines) != Some(name) {
      StepNamedVisited(lines, s.value.end, end, name);
    }
  }

  lemma {:induction false} RefreshInStep(u: seq<Line>, s: Step, q: nat, p: nat, ls: seq<Line>)
    requires s.start < q < p <= s.end <= |u| && s.lines == u[s.start..s.end]
    ensures u[..q] + ls + u[p..] == u[..s.start] + (s.lines[..q - s.start] + ls + s.lines[p - s.start..]) + u[s.end..]
  {
    assert u[..q] == u[..s.start] + s.lines[..q - s.start];
    assert u[p..] == s.lines[p - s.start..] + u[s.end..];
  }

  lemma {:induction false} BlockForm(b: seq<Line>, q: nat, p: nat)
    requires 0 < q < p <= |b|
    ensures var r := RefreshedBlock(b, q, p);
            r == b[..q] + InstallRun(b[q].Indent()) + b[p..] && |r| == |b| - (p - q) + 5 && r[0] == b[0]
  {
    hide InstallRun;
  }

  /** A step put in the place of another one, behind which the text ends the step. */
  lemma {:induction false} StepPut(u: seq<Line>, x: nat, y: nat, b: seq<Line>, v: seq<Line>, indent: nat)
    requires x < y <= |u| && v == u[..x] + b + u[y..] && b != [] && b[0].shape.Dash() && b[0].Indent() == indent
    requires (forall k | 0 < k < |b| :: !b[k].shape.Ends(indent)) && (y < |u| ==> u[y].shape.Ends(indent))
    ensures StepAt(v, x) == Some(Step(x, x + |b|, indent, b))
  {
    SplicedAt(u, x, y, b, v);
    hide SameFrom, SameUpTo;
    StepEndIs(v, x + 1, x + |b|, indent);
    assert v[x..x + |b|] == b;
  }

  /** The refreshed install step is still one step. */
  lemma {:induction false} RefreshedStep(u: seq<Line>, s: Step, q: nat, p: nat, v: seq<Line>)
    requires StepAt(u, s.start) == Some(s) && s.start < q < p <= s.end && u[q].shape.Run()
    requires v == u[..q] + InstallRun(u[q].Indent()) + u[p..]
    ensures p - s.start <= |s.lines|
    ensures var b := RefreshedBlock(s.lines, q - s.start, p - s.start);
            && StepAt(v, s.start) == Some(Step(s.start, s.start + |b|, s.indent, b))
            && Replaced(u, v, s.start, s.end, |b|)
            && |b| == (s.end - s.start) - (p - q) + 5 && |v| == |u| - (p - q) + 5
  {
    hide *;
    StepLinesThere(u, s);
    var b := RefreshedBlock(s.lines, q - s.start, p - s.start);
    BlockForm(s.lines, q - s.start, p - s.start);
    assert u[q] == s.lines[q - s.start];
    RefreshInStep(u, s, q, p, InstallRun(u[q].Indent()));
    RefreshedEnds(s.lines, s.indent, q - s.start, p - s.start);
    assert b[0] == u[s.start];
    StepPut(u, s.start, s.end, b, v, s.indent);
    SplicedAt(u, s.start, s.end, b, v);
    ReplacedIf(u, v, s.start, s.end, |b|);
  }

  lemma {:induction false} StepLinesThere(u: seq<Line>, s: Step)
    requires StepAt(u, s.start) == Some(s)
    ensures s.start < s.end <= |u| && s.lines == u[s.start..s.end] && u[s.start].shape.Dash()
    ensures u[s.start].Indent() == s.indent
    ensures forall k | 0 < k < |s.lines| :: !s.lines[k].shape.Ends(s.indent)
    ensures s.end < |u| ==> u[s.end].shape.Ends(s.indent)
  {
    forall k | 0 < k < |s.lines|
      ensures !s.lines[k].shape.Ends(s.indent)
    {
      assert Shapes(s.lines)[k] == s.lines[k].shape;
    }
  }

  lemma {:induction false} RefreshedEnds(b: seq<Line>, step: nat, q: nat, p: nat)
    requires 0 < q < p <= |b| && b[q].shape.Run() && forall k | 0 < k < |b| :: !b[k].shape.Ends(step)
    ensures forall k | 0 < k < |RefreshedBlock(b, q, p)| :: !RefreshedBlock(b, q, p)[k].shape.Ends(step)
  {
    hide InstallRun, RUN_HEADER, WellRead;
    InstallRunIsRead(b[q].Indent());
    var ls := RefreshedBlock(b, q, p);
    assert step <= b[q].Indent();
    forall k | 0 < k < |ls|
      ensures !ls[k].shape.Ends(step)
    {
      if k < q {
        assert ls[k] == b[k];
      } else if k < q + 5 {
        assert ls[k] == InstallRun(b[q].Indent())[k - q];
      } else {
        assert ls[k] == b[k - 5 - q + p];
      }
    }
  }

  lemma {:induction false} HotInStep(u: seq<Line>, s: Step, r: nat)
    requires StepAt(u, s.start) == Some(s) && s.start <= r < s.end
    ensures Hot(Shapes(u), r) <==> Hot(Shapes(s.lines), r - s.start)
  {
    hide *;
    StepBlockForm(u, s);
    HotInBlock(Shapes(u), s.Block(), r);
    BlockLines(s);
  }

  lemma {:induction false} BlockLines(s: Step)
    ensures s.Block().lines == Shapes(s.lines)
  {
  }

  /** The refreshed install step runs pytest only if it did before. */
  lemma {:induction false} RefreshedCold(u: seq<Line>, s: Step, q: nat, p: nat, v: seq<Line>, t: Step)
    requires StepAt(u, s.start) == Some(s) && StepAt(v, s.start) == Some(t) && t.start == s.start
    requires Refreshed(Shapes(u), q, p, 4, Shapes(v)) && s.start < q < p <= s.end && t.end == s.end - (p - q) + 5
    requires Cold(Shapes(s.lines))
    ensures Cold(Shapes(t.lines))
  {
    hide StepAt, Refreshed, Hot;
    forall r: nat
      ensures !Hot(Shapes(t.lines), r)
    {
      if Hot(Shapes(t.lines), r) {
        HotIsRun(Shapes(t.lines), r);
        StepLinesThere(v, t);
        HotBefore(u, s, q, p, v, t, r);
      }
    }
  }

  lemma {:induction false} HotBefore(u: seq<Line>, s: Step, q: nat, p: nat, v: seq<Line>, t: Step, r: nat)
    requires StepAt(u, s.start) == Some(s) && StepAt(v, s.start) == Some(t) && t.start == s.start
    requires Refreshed(Shapes(u), q, p, 4, Shapes(v)) && s.start < q < p <= s.end && t.end == s.end - (p - q) + 5
    requires r < t.end - t.start && Hot(Shapes(t.lines), r)
    ensures exists y: nat :: Hot(Shapes(s.lines), y)
  {
    hide *;
    HotInStep(v, t, t.start + r);
    RefreshKeepsHot(Shapes(u), q, p, 4, Shapes(v), t.start + r);
    var x: nat := LineBefore(q, p, 4, t.start + r);
    BeforeInBlock(q, p, t.start + r, s.start, s.end);
    HotInStep(u, s, x);
    assert Hot(Shapes(s.lines), x - s.start);
  }

  lemma {:induction false} BeforeInBlock(q: nat, p: nat, x: nat, start: nat, end: nat)
    requires start < q < p <= end && start <= x < end - (p - q) + 5 && (x < q || q + 5 <= x)
    ensures start <= LineBefore(q, p, 4, x) < end
  {
  }

  lemma {:induction false} SparedName(u: seq<Line>, k: Job, s: Step)
    requires NameSpared(u, k) && InstallRefresh(u, k.Bounds()).Some?
    requires s == StepNamed(u, k.start, k.end, INSTALL_STEP_NAME).value
    ensures Outdated(s.lines).Some? && InstallRefresh(u, k.Bounds()).value
            == (s.start + Outdated(s.lines).value.0, s.start + Outdated(s.lines).value.1)
    ensures var o := Outdated(s.lines).value; 0 < o.0 ==> KeepsName(s, s.start + o.0, s.start + o.1)
  {
    hide Outdated, StepName, StepNamed, NamesOfSteps, INSTALL_STEP_NAME;
  }

  /** Where the frontier is after the refresh of a step beside it. */
  lemma {:induction false} FrontierAside(t: Text, b: StepBlock, f: nat)
    requires IsBlock(t, b) && Aligned(t, f)
    ensures f <= b.start || b.end <= f
  {
    if b.start < f < b.end {
      BlockCovers(t, b, f);
    }
  }

  lemma {:induction false} NamedIf(v: seq<Line>, t: Step, name: string)
    requires StepAt(v, t.start) == Some(t) && StepName(t.lines) == Some(name)
    ensures StepNamedAt(v, t.start, name)
  {
    hide StepAt, StepName;
  }

  lemma {:induction false} NamedLines(u: seq<Line>, s: Step, name: string)
    requires StepNamedAt(u, s.start, name) && StepAt(u, s.start) == Some(s)
    ensures StepName(s.lines) == Some(name)
  {
    hide StepAt, StepName;
  }

  /** A step with the name stays one when the install step is refreshed. */
  lemma {:induction false} HeldRefresh(u: seq<Line>, k: Job, f: nat, name: string)
    requires Stands(u, k, f) && RefreshBelow(u, k) && NameSpared(u, k) && Held(u, k.start, k.end, f, name)
    ensures var g := Frontier(u, k.Bounds(), f);
            0 <= g && Held(AfterRefresh(u, InstallRefresh(u, k.Bounds())), k.start, RefreshedJob(u, k).end, g, name)
  {
    hide *;
    StandsForm(u, k, f);
    FrontierForm(u, k, f);
    var r := InstallRefresh(u, k.Bounds());
    if r.Some? {
      var s := InstallParts(u, k);
      RefreshedText(u, r.value);
      SparedName(u, k, s);
      InJobForm(k, s.start);
      RefreshNames(u, k.Bounds());
      StepLinesThere(u, s);
      HeldOverRefresh(u, k, f, name, s, r.value.0, r.value.1, AfterRefresh(u, r));
    }
  }

  /** A name line stands before the lines `q..p` of the step, or none is among them. */
  ghost predicate KeepsName(s: Step, q: nat, p: nat) {
    s.start < q < p <= s.start + |s.lines| &&
    (StepName(s.lines[..q - s.start]).Some? || StepName(s.lines[q - s.start..p - s.start]).None?)
  }

  lemma {:induction false} KeepsNameForm(s: Step, q: nat, p: nat)
    requires KeepsName(s, q, p)
    ensures s.start < q < p <= s.start + |s.lines|
    ensures StepName(RefreshedBlock(s.lines, q - s.start, p - s.start)) == StepName(s.lines)
  {
    hide StepName, RefreshedBlock;
    RefreshedName(s.lines, q - s.start, p - s.start);
  }

  lemma {:induction false} HeldOverRefresh(u: seq<Line>, k: Job, f: nat, name: string, s: Step, q: nat, p: nat,
                                           v: seq<Line>)
    requires Stands(u, k, f) && Held(u, k.start, k.end, f, name) && StepAt(u, s.start) == Some(s) && k.start <= s.start
    requires StepNamed(u, k.start, k.end, INSTALL_STEP_NAME) == Some(s) && KeepsName(s, q, p)
    requires s.start < q < p <= s.end <= k.end && RunExtent(Shapes(u), q, p) && Refreshed(Shapes(u), q, p, 4, Shapes(v))
    requires v == u[..q] + InstallRun(u[q].Indent()) + u[p..]
    ensures 0 <= Moved(f, q, p, 4) && 0 <= k.end + |v| - |u|
    ensures Held(v, k.start, k.end + |v| - |u|, Moved(f, q, p, 4), name)
  {
    hide *;
    StandsForm(u, k, f);
    RunKeyThere(u, q, p);
    RefreshedStep(u, s, q, p, v);
    MovedForm(f, q, p);
    StepBlockForm(u, s);
    FrontierAside(Shapes(u), s.Block(), f);
    var n := |RefreshedBlock(s.lines, q - s.start, p - s.start)|;
    var t := Step(s.start, s.start + n, s.indent, RefreshedBlock(s.lines, q - s.start, p - s.start));
    var w := HeldForm(u, k.start, k.end, f, name);
    HeldParts(u, k.start, k.end, f, name, w);
    StepNamedVisited(u, k.start, k.end, INSTALL_STEP_NAME);
    VisitedAside(u, k.start, s, w);
    VisitsStep(u, s);
    VisitsStep(v, t);
    PlaceForm(s.start, s.end, n, w);
    if w == s.start {
      NamedLines(u, s, name);
      KeepsNameForm(s, q, p);
      NamedIf(v, t, name);
      if f <= s.start {
        RefreshedCold(u, s, q, p, v, t);
      }
      VisitsItself(u, s.start);
      VisitsBefore(u, v, s.start, s.end, n, k.start, s.start);
      HeldIf(v, k.start, k.end + |v| - |u|, Moved(f, q, p, 4), name, s.start);
    } else {
      HeldStays(u, v, k.start, k.end, f, name, s.start, s.end, n, Moved(f, q, p, 4), w);
    }
  }

  lemma {:induction false} StepBlockForm(u: seq<Line>, s: Step)
    requires StepAt(u, s.start) == Some(s)
    ensures IsBlock(Shapes(u), s.Block()) && s.Block().start == s.start && s.Block().end == s.end
  {
    hide StepEnd;
  }

  // ---------------------------------------------------------------- the inserted steps

  lemma {:induction false} ScriptEnds(u: seq<Line>, i: nat, e: nat, step: nat)
    requires i <= e < |u| && u[e].shape.Ends(step) && forall k | i <= k < e :: step < u[k].Indent()
    ensures StepEnd(u, i, step) == e
    decreases e - i
  {
    if i < e {
      ScriptEnds(u, i + 1, e, step);
    }
  }

  /** A named script followed by a step of the same depth is one step for the scan, with that name. */
  lemma {:induction false} ScriptIsStep(u: seq<Line>, f: nat, b: seq<Line>, indent: nat, name: string)
    requires f + |b| < |u| && u[f..f + |b|] == b && ScriptStep(b, indent) && b[0] == NameLine(indent, name)
    requires PlainName(name)
    requires u[f + |b|].shape.Dash() && u[f + |b|].Indent() == indent
    ensures StepNamedAt(u, f, name) && Visits(u, f, f + |b|)
  {
    hide WellRead, PlainName, NameValue, RunsPytest, KindOf;
    assert forall k | 0 <= k < |b| :: u[f + k] == b[k];
    ScriptEnds(u, f + 1, f + |b|, indent);
    NameLineNames(name);
    assert StepAt(u, f).value.lines[0] == b[0];
  }

  lemma {:induction false} ScriptStarts(b: seq<Line>, indent: nat)
    requires ScriptStep(b, indent)
    ensures b != [] && b[0].shape.Dash() && b[0].Indent() == indent
  {
    hide WellRead;
  }

  lemma {:induction false} InsertedSlices(v: seq<Line>, f: nat, a: seq<Line>, b: seq<Line>)
    requires f < |v|
    ensures var w := InsertLines(v, f, a + b);
            && w[f..f + |a|] == a && w[f + |a|..f + |a| + |b|] == b && w[f + |a| + |b|] == v[f]
               && |w| == |v| + |a| + |b|
            && (b != [] ==> w[f + |a|] == b[0]) && (a != [] ==> w[f] == a[0])
  {
  }

  /** An inserted script, with nothing or another script behind it, is a step with its name. */
  lemma {:induction false} InsertedName(v: seq<Line>, f: nat, a: seq<Line>, b: seq<Line>, indent: nat, name: string)
    requires f < |v| && v[f].shape.Dash() && v[f].Indent() == indent && ScriptStep(a, indent) && PlainName(name)
    requires a[0] == NameLine(indent, name) && (b != [] ==> b[0].shape.Dash() && b[0].Indent() == indent)
    ensures var w := InsertLines(v, f, a + b); StepNamedAt(w, f, name) && Visits(w, f, f + |a|)
  {
    hide *;
    ScriptStarts(a, indent);
    InsertedSlices(v, f, a, b);
    ScriptIsStep(InsertLines(v, f, a + b), f, a, indent, name);
  }

  /** An inserted script behind another one is a step with its name. */
  lemma {:induction false} SecondName(v: seq<Line>, f: nat, a: seq<Line>, b: seq<Line>, indent: nat, name: string)
    requires f < |v| && v[f].shape.Dash() && v[f].Indent() == indent && ScriptStep(b, indent) && PlainName(name)
    requires b[0] == NameLine(indent, name)
    ensures var w := InsertLines(v, f, a + b); StepNamedAt(w, f + |a|, name)
  {
    hide *;
    ScriptStarts(b, indent);
    InsertedSlices(v, f, a, b);
    ScriptIsStep(InsertLines(v, f, a + b), f + |a|, b, indent, name);
  }

  /** The two blocks, each unless its name is there. */
  lemma {:induction false} MissingForms(names: set<string>, indent: nat)
    ensures var a := if INSTALL_STEP_NAME in names then [] else InstallBlock(indent);
            var b := if SELECT_STEP_NAME in names then [] else SelectBlock(indent);
            MissingSteps(names, indent) == a + b
  {
    hide InstallBlock, SelectBlock, INSTALL_STEP_NAME, SELECT_STEP_NAME;
  }

  lemma {:induction false} SupportBlocks(indent: nat)
    ensures ScriptStep(InstallBlock(indent), indent) && InstallBlock(indent)[0] == NameLine(indent, INSTALL_STEP_NAME)
    ensures ScriptStep(SelectBlock(indent), indent) && SelectBlock(indent)[0] == NameLine(indent, SELECT_STEP_NAME)
    ensures PlainName(INSTALL_STEP_NAME) && PlainName(SELECT_STEP_NAME) && INSTALL_STEP_NAME != ""
    ensures SELECT_STEP_NAME != ""
  {
    SupportNamesArePlain();
    InstallBlockIsScript(indent);
    SelectBlockIsScript(indent);
    hide ScriptStep, INSTALL_STEP_NAME, SELECT_STEP_NAME, NameLine;
    assert PlainName(INSTALL_STEP_NAME) && PlainName(SELECT_STEP_NAME);
  }

  /** What is lacking is there once it is inserted at the frontier of the job. */
  lemma {:induction false} LackingIsHeld(v: seq<Line>, m: Job, f: nat, names: set<string>, indent: nat)
    requires Stands(v, m, f) && f < m.end && f < |v| && v[f].shape.Dash() && v[f].Indent() == indent
    requires MissingSteps(names, indent) != []
    ensures var added := MissingSteps(names, indent);
            var w, n := InsertLines(v, f, added), |added|;
            && (INSTALL_STEP_NAME !in names ==> Held(w, m.start, m.end + n, f + n, INSTALL_STEP_NAME))
            && (SELECT_STEP_NAME !in names ==> Held(w, m.start, m.end + n, f + n, SELECT_STEP_NAME))
  {
    hide *;
    StandsForm(v, m, f);
    SupportBlocks(indent);
    ScriptStarts(InstallBlock(indent), indent);
    ScriptStarts(SelectBlock(indent), indent);
    MissingForms(names, indent);
    var a := if INSTALL_STEP_NAME in names then [] else InstallBlock(indent);
    var b := if SELECT_STEP_NAME in names then [] else SelectBlock(indent);
    var w := InsertLines(v, f, a + b);
    InsertedSlices(v, f, a, b);
    AlignedIsVisited(v, m.start, f);
    VisitsItself(v, f);
    InsertReplaces(v, f, a + b, indent);
    VisitsBefore(v, w, f, f, |a + b|, m.start, f);
    if a != [] {
      InsertedName(v, f, a, b, indent, INSTALL_STEP_NAME);
      HeldIf(w, m.start, m.end + |a + b|, f + |a + b|, INSTALL_STEP_NAME, f);
    } else {
      VisitsItself(w, f);
    }
    if b != [] {
      SecondName(v, f, a, b, indent, SELECT_STEP_NAME);
      VisitsOn(w, m.start, f, f + |a|);
      HeldIf(w, m.start, m.end + |a + b|, f + |a + b|, SELECT_STEP_NAME, f + |a|);
    }
  }

  lemma {:induction false} InsertReplaces(v: seq<Line>, f: nat, ls: seq<Line>, indent: nat)
    requires f < |v| && v[f].shape.Dash() && v[f].Indent() == indent && ls != [] && ls[0].shape.Dash()
    requires ls[0].Indent() == indent
    ensures Replaced(v, InsertLines(v, f, ls), f, f, |ls|)
  {
    SplicedAt(v, f, f, ls, InsertLines(v, f, ls));
    hide SameFrom, SameUpTo;
    ReplacedIf(v, InsertLines(v, f, ls), f, f, |ls|);
  }

  /** What is there stays when the rest is inserted at the frontier. */
  lemma {:induction false} HeldInsert(v: seq<Line>, m: Job, f: nat, names: set<string>, indent: nat, name: string)
    requires Stands(v, m, f) && f < m.end && f < |v| && v[f].shape.Dash() && v[f].Indent() == indent
    requires MissingSteps(names, indent) != []
    requires Held(v, m.start, m.end, f, name)
    ensures var added := MissingSteps(names, indent);
            Held(InsertLines(v, f, added), m.start, m.end + |added|, f + |added|, name)
  {
    hide *;
    StandsForm(v, m, f);
    var added := MissingSteps(names, indent);
    var w := InsertLines(v, f, added);
    SupportStands(v, m, f, names, indent);
    GrownForm(m, |added|);
    FollowsForm(v, m, f, w, m.Grown(0, |added|), f + |added|);
    StandsForm(w, m.Grown(0, |added|), f + |added|);
    MissingStepsAreSteps(names, indent);
    ShapedStart(added, indent);
    InsertReplaces(v, f, added, indent);
    AlignedIsVisited(v, m.start, f);
    VisitsItself(v, f);
    AlignedIsVisited(w, f, f + |added|);
    var p := HeldForm(v, m.start, m.end, f, name);
    HeldParts(v, m.start, m.end, f, name, p);
    PlaceForm(f, f, |added|, p);
    HeldStays(v, w, m.start, m.end, f, name, f, f, |added|, f + |added|, p);
  }

  /** After the support steps are ensured in place, the job has both. */
  lemma {:induction false} SupportIsHeld(u: seq<Line>, k: Job, s: Step, name: string) returns (m: Job, g: nat)
    requires Stands(u, k, s.start) && StepAt(u, s.start) == Some(s) && s.start < k.end && RefreshBelow(u, k)
    requires !Misplaces(u, k.Bounds(), s) && NameSpared(u, k) && Unclaimed(u, s.start, name)
    requires name == INSTALL_STEP_NAME || name == SELECT_STEP_NAME
    ensures var w := WithSupport(u, k.Bounds(), s);
            Stands(w, m, g) && m.start == k.start && Held(w, k.start, m.end, g, name)
    ensures SameFrom(u, k.end, WithSupport(u, k.Bounds(), s), m.end)
  {
    hide *;
    StandsForm(u, k, s.start);
    StepForm(u, s);
    var b, w := k.Bounds(), WithSupport(u, k.Bounds(), s);
    RefreshStands(u, k, s.start);
    FrontierForm(u, k, s.start);
    WithSupportForm(u, b, s);
    MisplacedMoves(u, b, s);
    var v, n, f := AfterRefresh(u, InstallRefresh(u, b)), RefreshedJob(u, k), Frontier(u, b, s.start);
    FollowsForm(u, k, s.start, v, n, f);
    StandsForm(v, n, f);
    var names, added := NamesOfSteps(u, k.start, k.end), Lacking(u, b, s.indent);
    if name in names {
      NameIsHeld(u, k, s.start, name);
      HeldRefresh(u, k, s.start, name);
    }
    if added == [] {
      m, g := n, f;
      NoneLacking(names, s.indent);
    } else {
      DashKept(u, v, f);
      SupportStands(v, n, f, names, s.indent);
      GrownForm(n, |added|);
      m, g := n.Grown(0, |added|), f + |added|;
      FollowsForm(v, n, f, w, m, g);
      SameThrough(u, k.end, v, n.end, w, m.end);
      LackingIsHeld(v, n, f, names, s.indent);
      if name in names {
        HeldInsert(v, n, f, names, s.indent, name);
      }
    }
  }

  lemma {:induction false} NoneLacking(names: set<string>, indent: nat)
    requires MissingSteps(names, indent) == []
    ensures INSTALL_STEP_NAME in names && SELECT_STEP_NAME in names
  {
    hide INSTALL_STEP_NAME, SELECT_STEP_NAME;
  }

  // ---------------------------------------------------------------- the jobs of a run

  /** Every job dealt with has a step with the name. */
  ghost predicate AllHeld(lines: seq<Line>, search: nat, places: seq<Place>, name: string) {
    forall p | p in places :: Held(lines, p.now.start, p.now.end, search, name)
  }

  lemma {:induction false} EndSame(a: seq<Line>, b: seq<Line>, e: nat, i: nat, step: nat)
    requires SameUpTo(a, b, e + 1) && i <= e && a[e].shape.Ends(step)
    ensures StepEnd(b, i, step) == StepEnd(a, i, step) <= e
    decreases e - i
  {
    if i < e && !a[i].shape.Ends(step) {
      EndSame(a, b, e, i + 1, step);
    }
  }

  /** The line behind a job ends every step in it. */
  lemma {:induction false} JobEndsSteps(a: seq<Line>, j: Job, i: nat)
    requires AllRead(a) && IsJob(a, j) && j.end < |a| && j.start <= i < j.end && a[i].shape.Dash()
    ensures a[j.end].shape.Ends(a[i].Indent())
  {
    KeyIsNotBlank(a, j);
    hide AllRead, JobKey, OpensSteps;
  }

  lemma {:induction false} StepSameTo(a: seq<Line>, b: seq<Line>, e: nat, i: nat)
    requires e < |a| && SameUpTo(a, b, e + 1) && i < e && a[i].shape.Dash() && a[e].shape.Ends(a[i].Indent())
    ensures StepAt(b, i) == StepAt(a, i) && StepAt(a, i).Some? && StepAt(a, i).value.end <= e
  {
    EndSame(a, b, e, i + 1, a[i].Indent());
    hide StepEnd;
    var x := StepAt(a, i).value.end;
    assert a[i..x] == b[i..x];
  }

  lemma {:induction false} NoStepThere(a: seq<Line>, b: seq<Line>, e: nat, i: nat)
    requires e < |a| && SameUpTo(a, b, e + 1) && i < e && !a[i].shape.Dash()
    ensures StepAt(b, i) == StepAt(a, i) == None
  {
    hide StepEnd;
  }

  /** The lines of a job, and the one behind it, decide about its steps. */
  lemma {:induction false} StepSame(a: seq<Line>, b: seq<Line>, j: Job, i: nat)
    requires AllRead(a) && IsJob(a, j) && j.end < |a| && SameUpTo(a, b, j.end + 1) && j.start <= i < j.end
    ensures StepAt(b, i) == StepAt(a, i) && (StepAt(a, i).Some? ==> StepAt(a, i).value.end <= j.end)
  {
    hide AllRead, IsJob, SameUpTo, StepAt;
    if i < |a| && a[i].shape.Dash() {
      JobEndsSteps(a, j, i);
      StepSameTo(a, b, j.end, i);
    } else {
      NoStepThere(a, b, j.end, i);
    }
  }

  lemma {:induction false} VisitsSame(a: seq<Line>, b: seq<Line>, j: Job, i: nat, p: nat)
    requires AllRead(a) && IsJob(a, j) && j.end < |a| && SameUpTo(a, b, j.end + 1) && j.start <= i && p < j.end
    requires Visits(a, i, p)
    ensures Visits(b, i, p)
    decreases p - i
  {
    hide StepAt, AllRead, IsJob, SameUpTo;
    VisitsForward(a, i, p);
    if i < p {
      StepSame(a, b, j, i);
      var s := StepAt(a, i);
      VisitsSame(a, b, j, if s.None? then i + 1 else s.value.end, p);
    }
  }

  lemma {:induction false} HeldBefore(a: seq<Line>, b: seq<Line>, j: Job, search: nat, further: nat, name: string)
    requires AllRead(a) && IsJob(a, j) && j.end < |a| && SameUpTo(a, b, j.end + 1) && j.end <= further
    requires Held(a, j.start, j.end, search, name)
    ensures Held(b, j.start, j.end, further, name)
  {
    hide *;
    JobForm(a, j);
    var p := HeldForm(a, j.start, j.end, search, name);
    HeldParts(a, j.start, j.end, search, name, p);
    VisitsForward(a, j.start, p);
    VisitsSame(a, b, j, j.start, p);
    StepSame(a, b, j, p);
    SameNamed(a, b, p, name);
    HeldIf(b, j.start, j.end, further, name, p);
  }

  lemma {:induction false} SameNamed(a: seq<Line>, b: seq<Line>, p: nat, name: string)
    requires StepNamedAt(a, p, name) && StepAt(b, p) == StepAt(a, p)
    ensures StepNamedAt(b, p, name)
  {
    hide StepAt, StepName;
  }

  /** The jobs before the edited lines keep their names. */
  lemma {:induction false} HeldPlaces(text: seq<Line>, a: seq<Line>, b: seq<Line>, x: nat, places: seq<Place>,
                                      search: nat, further: nat, name: string)
    requires AllRead(a) && Settled(text, a, places) && AllHeld(a, search, places, name) && SameUpTo(a, b, x)
    requires x <= further
    requires forall i | 0 <= i < |places| :: places[i].now.end < x
    ensures AllHeld(b, further, places, name)
  {
    SameUpToForm(a, b, x);
    hide Placed, Held, SameUpTo, AllRead;
    forall p | p in places
      ensures Held(b, p.now.start, p.now.end, further, name)
    {
      var i :| 0 <= i < |places| && places[i] == p;
      PlacedForm(text, a, places[i]);
      SameUpToLess(a, b, x, p.now.end + 1);
      HeldBefore(a, b, p.now, search, further, name);
    }
  }

  lemma {:induction false} SameUpToForm(a: seq<Line>, b: seq<Line>, x: nat)
    requires SameUpTo(a, b, x)
    ensures x <= |a| && x <= |b|
  {
  }

  lemma {:induction false} HeldLast(lines: seq<Line>, search: nat, places: seq<Place>, name: string)
    requires AllHeld(lines, search, places, name) && places != []
    ensures var p := places[|places| - 1];
            Held(lines, p.now.start, p.now.end, search, name) && AllHeld(lines, search, places[..|places| - 1], name)
  {
    hide Held;
    assert places[|places| - 1] in places;
  }

  lemma {:induction false} HeldWithLast(lines: seq<Line>, search: nat, places: seq<Place>, p: Place, name: string)
    requires AllHeld(lines, search, places, name) && Held(lines, p.now.start, p.now.end, search, name)
    ensures AllHeld(lines, search, places + [p], name)
  {
    hide Held;
  }

  lemma {:induction false} PlacesApart(text: seq<Line>, lines: seq<Line>, places: seq<Place>)
    requires Settled(text, lines, places) && places != []
    ensures var p, before := places[|places| - 1], places[..|places| - 1];
            forall i | 0 <= i < |before| :: before[i].now.end <= p.now.start
  {
    hide Placed;
  }

  /** All jobs keep the name when a step of the last one is rewritten. */
  lemma {:induction false} AllHeldRewrite(text: seq<Line>, lines: seq<Line>, w: World, t: Step, v: World, name: string)
    requires Layout(text, lines, t.start, w) && Settled(text, lines, w.places) && w.places != []
    requires t.start < w.at && StepAt(lines, t.start) == Some(t) && !Cold(Shapes(t.lines)) && Regrown(w, t, v)
    requires AllHeld(lines, t.start, w.places, name)
    ensures AllHeld(Rewriting(lines, t), t.start + |RewriteLines(t.lines, t.indent)|, v.places, name)
  {
    hide *;
    LayoutForm(text, lines, t.start, w);
    RewriteLayout(text, lines, w, t);
    RegrownForm(w, t, v);
    LastForm(w);
    PlacesBut(text, lines, w.places);
    PlacesApart(text, lines, w.places);
    var p, ls, u := w.Last(), RewriteLines(t.lines, t.indent), Rewriting(lines, t);
    PlacedForm(text, lines, p);
    JobForm(lines, p.now);
    HeldLast(lines, t.start, w.places, name);
    var n := |ls| - (t.end - t.start);
    GrowForm(w, n);
    StepForm(lines, t);
    HeldRewrite(lines, p.now.start, p.now.end, t, name);
    HeldPlaces(text, lines, u, t.start, w.places[..|w.places| - 1], t.start, t.start + |ls|, name);
    HeldWithLast(u, t.start + |ls|, w.places[..|w.places| - 1], v.Last(), name);
  }

  // ---------------------------------------------------------------- texts whose support steps keep their names

  /** No step that runs pytest has the name of a support step, and no refresh takes the install step its name. */
  ghost predicate SupportNamed(text: seq<Line>) {
    && (forall d: nat | PytestStep(text, d) ::
       !StepNamedAt(text, d, INSTALL_STEP_NAME) && !StepNamedAt(text, d, SELECT_STEP_NAME))
    && (forall a: Job, d: nat | FirstOfJob(text, a, d) ::
          InText(text, a.Bounds()) ==> NameSpared(Axed(text, a), AxedJob(text, a)))
  }

  lemma {:induction false} SupportNamedForm(text: seq<Line>, a: Job, d: nat, name: string)
    requires SupportNamed(text) && (name == INSTALL_STEP_NAME || name == SELECT_STEP_NAME)
    ensures PytestStep(text, d) ==> !StepNamedAt(text, d, name)
    ensures FirstOfJob(text, a, d) && InText(text, a.Bounds()) ==> NameSpared(Axed(text, a), AxedJob(text, a))
  {
    hide PytestStep, StepNamedAt, FirstOfJob, NameSpared, INSTALL_STEP_NAME, SELECT_STEP_NAME;
  }

  lemma {:induction false} NameSparedShifts(u: seq<Line>, i: nat, v: seq<Line>, k: nat, m: Job)
    requires SameFrom(u, i, v, k) && i <= m.start && i <= m.steps && i <= m.end && NameSpared(u, m)
    ensures NameSpared(v, m.By(k - i))
  {
    hide SameFrom, InstallRefresh, StepNamed, INSTALL_STEP_NAME, StepAt, StepName, Outdated;
    RefreshShifts(u, i, v, k, m.Bounds());
    StepNamedShifts(u, i, v, k, m.start, m.end, INSTALL_STEP_NAME);
    if InstallRefresh(u, m.Bounds()).Some? {
      RefreshNames(u, m.Bounds());
    }
  }

  /** A step from line `k` on that runs pytest was one before, with the same lines. */
  lemma {:induction false} StepWas(text: seq<Line>, i: nat, u: seq<Line>, k: nat, d: nat)
    requires SameFrom(text, i, u, k) && Aligned(Shapes(text), i) && k <= d && PytestStep(u, d)
    ensures PytestStep(text, d - k + i) && StepAt(text, d - k + i).Some? && StepAt(u, d).Some?
    ensures StepAt(text, d - k + i).value.lines == StepAt(u, d).value.lines
  {
    hide *;
    PytestStepForm(u, d);
    SameBack(text, i, u, k);
    StepShifts(u, k, text, i, d);
    StepByForm(StepAt(u, d).value, i - k);
    SameShapes(text, i, u, k);
    AlignedBack(Shapes(text), i, Shapes(u), k, d - k);
    PytestStepIf(text, d - k + i);
  }

  lemma {:induction false} UnclaimedNow(text: seq<Line>, i: nat, u: seq<Line>, k: nat, name: string)
    requires SameFrom(text, i, u, k) && Aligned(Shapes(text), i) && SupportNamed(text)
    requires name == INSTALL_STEP_NAME || name == SELECT_STEP_NAME
    ensures Unclaimed(u, k, name)
  {
    hide SameFrom, Aligned, SupportNamed, PytestStep, StepNamedAt, INSTALL_STEP_NAME, SELECT_STEP_NAME;
    forall p: nat | k <= p && PytestStep(u, p)
      ensures !StepNamedAt(u, p, name)
    {
      StepWas(text, i, u, k, p);
      SupportNamedForm(text, Job(0, 0, 0), p - k + i, name);
      SameLinesSameName(text, p - k + i, u, p, name);
    }
  }

  lemma {:induction false} SameLinesSameName(a: seq<Line>, i: nat, b: seq<Line>, k: nat, name: string)
    requires StepAt(a, i).Some? && StepAt(b, k).Some? && StepAt(a, i).value.lines == StepAt(b, k).value.lines
    ensures StepNamedAt(a, i, name) == StepNamedAt(b, k, name)
  {
    hide StepAt, StepName;
  }

  /** All jobs have the name when a new one is prepared. */
  lemma {:induction false} AllHeldReady(text: seq<Line>, s: State, newline: nat, w: World, step: Step, a: Job, b: Job,
                                        m: Job, t: Step, name: string)
    requires Arrives(text, s, newline, w, step, a, b) && SupportNamed(text)
    requires AllHeld(s.lines, s.search, w.places, name)
    requires name == INSTALL_STEP_NAME || name == SELECT_STEP_NAME
    requires InText(text, a.Bounds()) && !MatrixEdit(text, a.start, a.end).Conflict?
    requires !Stale(text, a, OriginStep(text, Origin(w, step)))
    requires InText(s.lines, b.Bounds())
    requires var u, k, s1 := Axed(s.lines, b), AxedJob(s.lines, b), AxedStep(s.lines, b, step);
             Ready(s.lines, b, step, WithSupport(u, k.Bounds(), s1), m, t)
    ensures var u, k, s1 := Axed(s.lines, b), AxedJob(s.lines, b), AxedStep(s.lines, b, step);
            AllHeld(WithSupport(u, k.Bounds(), s1), t.start, w.places + [Place(a, m)], name)
  {
    hide *;
    ArrivesForm(text, s, newline, w, step, a, b);
    JobArrived(text, s, newline, w, step, a, b);
    InvForm(text, s, newline, w);
    LayoutForm(text, s.lines, s.search, w);
    LaidOutParts(s.lines, b);
    JobForm(s.lines, b);
    AxisHeads(s.lines, b, step);
    AxedForm(s.lines, b, step);
    StaleForm(s.lines, b, step);
    var u, k, s1 := Axed(s.lines, b), AxedJob(s.lines, b), AxedStep(s.lines, b, step);
    AxedStands(s.lines, b, u, k, s1);
    StandsForm(u, k, s1.start);
    HeadsForm(u, b.start, s1);
    var p := WithSupport(u, k.Bounds(), s1);
    ReadyForm(s.lines, b, step, p, m, t);
    JobForm(p, m);
    var d := Origin(w, step);
    FirstOfJobForm(text, a, d);
    LaidOutForm(text, a);
    PytestStepForm(text, d);
    SparedNow(text, s.lines, w, a, b, d, name);
    StepSameFrom(text, s.lines, w, b, u, k, step.start, d);
    UnclaimedNow(text, d, u, s1.start, name);
    var m1, g := SupportIsHeld(u, k, s1, name);
    HeadBehind(p, m1, g, t);
    SameEndJob(s.lines, b, u, k, p, m, m1);
    HeldFurther(p, k.start, m1.end, g, name, t.start);
    PlacesEnd(text, s.lines, s.search, w);
    HeldPlaces(text, s.lines, p, b.start + 1, w.places, s.search, t.start, name);
    HeldWithLast(p, t.start, w.places, Place(a, m), name);
  }

  lemma {:induction false} SameEndJob(lines: seq<Line>, b: Job, u: seq<Line>, k: Job, p: seq<Line>, m: Job, m1: Job)
    requires SameFrom(lines, b.end, p, m.end) && SameFrom(u, k.end, p, m1.end) && |u| - |lines| == k.end - b.end
    ensures m.end == m1.end
  {
    SameLength(lines, b.end, p, m.end);
    SameLength(u, k.end, p, m1.end);
  }

  lemma {:induction false} SparedNow(text: seq<Line>, lines: seq<Line>, w: World, a: Job, b: Job, d: nat, name: string)
    requires SupportNamed(text) && (name == INSTALL_STEP_NAME || name == SELECT_STEP_NAME) && FirstOfJob(text, a, d)
    requires SameFrom(text, w.cut, lines, w.at) && w.cut <= a.start && InText(text, a.Bounds())
    requires InText(lines, b.Bounds())
    requires b == Job(a.start + w.at - w.cut, a.steps + w.at - w.cut, a.end + w.at - w.cut) && IsJob(text, a)
    ensures NameSpared(Axed(lines, b), AxedJob(lines, b))
  {
    hide *;
    JobForm(text, a);
    SupportNamedForm(text, a, d, name);
    ByForm(a, w.at - w.cut);
    AxedShifts(text, w.cut, lines, w.at, a, Step(w.cut, w.cut, 0, []));
    AxedForm(text, a, Step(w.cut, w.cut, 0, []));
    NameSparedShifts(Axed(text, a), w.cut, Axed(lines, b), w.at, AxedJob(text, a));
  }

  lemma {:induction false} StepSameFrom(text: seq<Line>, lines: seq<Line>, w: World, b: Job, u: seq<Line>, k: Job,
                                        f: nat, d: nat)
    requires SameFrom(text, w.cut, lines, w.at) && Given(lines, b, u) && b.steps <= f <= |lines| && w.at <= f
    requires d == f - w.at + w.cut
    ensures var n := |u| - |lines|; n >= 0 && SameFrom(text, d, u, f + n)
  {
    hide *;
    GivenForm(lines, b, u);
    SameLength(text, w.cut, lines, w.at);
    SameLater(text, w.cut, lines, w.at, d - w.cut);
    SameLater(lines, b.steps, u, b.steps + |u| - |lines|, f - b.steps);
    SameThrough(text, d, lines, f, u, f + |u| - |lines|);
  }
}
