/** The steps that run pytest, in order, and that preparing a job changes nothing about them but install scripts. */
module StepLists {
  import opened PyStrings
  import opened StepBlocks
  import opened WorkflowLines
  import opened StepRewriter
  import opened RewrittenSteps
  import opened JobMatrix
  import opened TextPatcher
  import opened WorkflowPatcher
  import opened PlainRuns
  import opened JobLayouts
  import opened JobHeaders
  import opened JobPreparation
  import opened LaidOutJobs
  import opened LaidOutRuns
  import opened SupportNames

  /** The steps that run pytest, as a scan from line `i` meets them. */
  ghost function PytestSteps(lines: seq<Line>, i: nat): (r: seq<seq<Line>>)
    decreases |lines| - i
  {
    match FirstStep(lines, i)
    case None => []
    case Some(s) =>
      FoundIsThere(lines, i);
      [s.lines] + PytestSteps(lines, s.end)
  }

  lemma {:induction false} FoundIsThere(lines: seq<Line>, i: nat)
    ensures var r := FirstStep(lines, i);
            r.Some? ==>
              i <= r.value.start < r.value.end <= |lines| && StepAt(lines, r.value.start) == r
              && !Cold(Shapes(r.value.lines))
  {
    hide FirstStep, StepEnd, Cold;
    var r := FirstStep(lines, i);
    if r.Some? {
      StepForm(lines, r.value);
    }
  }

  lemma {:induction false} StepsFound(lines: seq<Line>, i: nat, s: Step)
    requires FirstStep(lines, i) == Some(s)
    ensures i <= s.start < s.end <= |lines| && PytestSteps(lines, i) == [s.lines] + PytestSteps(lines, s.end)
  {
    hide FirstStep;
    FoundIsThere(lines, i);
  }

  lemma {:induction false} NoStepsFound(lines: seq<Line>, i: nat)
    requires FirstStep(lines, i).None?
    ensures PytestSteps(lines, i) == []
  {
    hide FirstStep;
  }

  // ---------------------------------------------------------------- the scan in two texts

  lemma {:induction false} ScanOn(lines: seq<Line>, i: nat)
    ensures |lines| <= i ==> FirstStep(lines, i) == None
    ensures i < |lines| ==>
              var s := StepAt(lines, i);
              && (s.None? ==> FirstStep(lines, i) == FirstStep(lines, i + 1))
              && (s.Some? ==> s.value.start == i < s.value.end <= |lines|)
              && (s.Some? ==> FirstStep(lines, i) == if Cold(Shapes(s.value.lines)) then FirstStep(lines, s.value.end)
                 else s)
  {
    hide StepEnd, Cold;
  }

  /** What a scan meets depends on the lines from where it starts. */
  lemma {:induction false} FirstShifts(a: seq<Line>, i: nat, b: seq<Line>, k: nat, x: nat)
    requires SameFrom(a, i, b, k) && i <= x
    ensures StepMoved(FirstStep(a, x), FirstStep(b, x - i + k), k - i)
    decreases |a| - x
  {
    hide *;
    ScanOn(a, x);
    ScanOn(b, x - i + k);
    SameLength(a, i, b, k);
    MovedNone(k - i);
    if x < |a| {
      StepShifts(a, i, b, k, x);
      var s := StepAt(a, x);
      if s.None? {
        FirstShifts(a, i, b, k, x + 1);
      } else {
        StepByForm(s.value, k - i);
        if Cold(Shapes(s.value.lines)) {
          FirstShifts(a, i, b, k, s.value.end);
        } else {
          MovedSome(s.value, k - i);
        }
      }
    }
  }

  lemma {:induction false} MovedNone(n: int)
    ensures StepMoved(None, None, n)
  {
  }

  lemma {:induction false} MovedSome(s: Step, n: int)
    requires 0 <= s.start + n && 0 <= s.end + n
    ensures StepMoved(Some(s), Some(StepBy(s, n)), n)
  {
  }

  lemma {:induction false} StepMovedForm(a: Option<Step>, b: Option<Step>, n: int)
    requires StepMoved(a, b, n)
    ensures a.Some? <==> b.Some?
    ensures a.Some? ==>
              0 <= a.value.start + n && 0 <= a.value.end + n
              && b.value == Step(a.value.start + n, a.value.end + n, a.value.indent, a.value.lines)
  {
  }

  lemma {:induction false} HeadLater(lines: seq<Line>, base: nat, k: nat, s: Step)
    requires Heads(lines, base, s) && base <= k <= s.start
    ensures FirstStep(lines, k) == Some(s)
  {
    hide StepAt, Cold, Aligned, FirstStep;
    CleanLater(Shapes(lines), base, k, s.start);
    HeadIsFirst(lines, k, s);
  }

  lemma {:induction false} CleanLater(t: Text, base: nat, k: nat, f: nat)
    requires Clean(t, base, f) && base <= k
    ensures Clean(t, k, f)
  {
    forall r: nat | r < f
      ensures !ExposedFrom(t, k, r)
    {
      if ExposedFrom(t, k, r) {
        assert ExposedFrom(t, base, r);
      }
    }
  }

  // ---------------------------------------------------------------- the steps that will be rewritten

  /** The lines of an install step after its script was replaced. */
  function Renewed(b: seq<Line>): seq<Line> {
    match Outdated(b)
    case None => b
    case Some((q, p)) => RefreshedBlock(b, q, p)
  }

  ghost function IfHot(b: seq<Line>): seq<seq<Line>> { if Cold(Shapes(b)) then [] else [b] }

  /** The steps that run pytest, from line `i` on, when those opened at the lines `renewed` get a new install script:
      without the ones that run no pytest any more. */
  ghost function Rest(lines: seq<Line>, i: nat, renewed: iset<nat>): seq<seq<Line>>
    decreases |lines| - i
  {
    match FirstStep(lines, i)
    case None => []
    case Some(s) =>
      FoundIsThere(lines, i);
      IfHot(if s.start in renewed then Renewed(s.lines) else s.lines) + Rest(lines, s.end, renewed)
  }

  lemma {:induction false} RestFound(lines: seq<Line>, i: nat, renewed: iset<nat>, s: Step)
    requires FirstStep(lines, i) == Some(s)
    ensures i <= s.start < s.end <= |lines|
    ensures Rest(lines, i, renewed)
            == IfHot(if s.start in renewed then Renewed(s.lines) else s.lines) + Rest(lines, s.end, renewed)
  {
    hide FirstStep, IfHot, Renewed;
    FoundIsThere(lines, i);
  }

  lemma {:induction false} RestNone(lines: seq<Line>, i: nat, renewed: iset<nat>)
    requires FirstStep(lines, i).None?
    ensures Rest(lines, i, renewed) == []
  {
    hide FirstStep;
  }

  /** Where the scan starts does not matter, if it finds the same. */
  lemma {:induction false} RestOn(lines: seq<Line>, i: nat, k: nat, renewed: iset<nat>)
    requires FirstStep(lines, i) == FirstStep(lines, k)
    ensures Rest(lines, i, renewed) == Rest(lines, k, renewed)
  {
    hide *;
    var r := FirstStep(lines, i);
    if r.Some? {
      RestFound(lines, i, renewed, r.value);
      RestFound(lines, k, renewed, r.value);
    } else {
      RestNone(lines, i, renewed);
      RestNone(lines, k, renewed);
    }
  }

  lemma {:induction false} RestShifts(a: seq<Line>, i: nat, b: seq<Line>, k: nat, x: nat, ra: iset<nat>, rb: iset<nat>)
    requires SameFrom(a, i, b, k) && i <= x && forall y: nat | x <= y :: y in ra <==> y - i + k in rb
    ensures Rest(b, x - i + k, rb) == Rest(a, x, ra)
    decreases |a| - x
  {
    hide *;
    FirstShifts(a, i, b, k, x);
    StepMovedForm(FirstStep(a, x), FirstStep(b, x - i + k), k - i);
    if FirstStep(a, x).Some? {
      var s, t := FirstStep(a, x).value, FirstStep(b, x - i + k).value;
      RestFound(a, x, ra, s);
      RestFound(b, x - i + k, rb, t);
      RestShifts(a, i, b, k, s.end, ra, rb);
    } else {
      RestNone(a, x, ra);
      RestNone(b, x - i + k, rb);
    }
  }

  /** If only steps that run no pytest are renewed, these are all the steps that do. */
  lemma {:induction false} RestIsAll(lines: seq<Line>, i: nat, renewed: iset<nat>)
    requires forall y: nat | y in renewed && StepAt(lines, y).Some? :: Cold(Shapes(StepAt(lines, y).value.lines))
    ensures Rest(lines, i, renewed) == PytestSteps(lines, i)
    decreases |lines| - i
  {
    hide StepAt, FirstStep, Cold, Rest, PytestSteps, Renewed;
    if FirstStep(lines, i).Some? {
      var s := FirstStep(lines, i).value;
      FoundIsThere(lines, i);
      RestFound(lines, i, renewed, s);
      StepsFound(lines, i, s);
      RestIsAll(lines, s.end, renewed);
    } else {
      RestNone(lines, i, renewed);
      NoStepsFound(lines, i);
    }
  }

  // ---------------------------------------------------------------- over a refresh

  /** The install step `s` of the one text is `t` in the other one, with a new script, and nothing else changed. */
  ghost predicate StepRenewed(u: seq<Line>, v: seq<Line>, s: Step, t: Step) {
    && StepAt(u, s.start) == Some(s) && StepAt(v, s.start) == Some(t) && t.lines == Renewed(s.lines)
    && SameUpTo(u, v, s.start + 1) && SameFrom(u, s.end, v, t.end) && (Cold(Shapes(s.lines)) ==> Cold(Shapes(t.lines)))
  }

  lemma {:induction false} StepRenewedForm(u: seq<Line>, v: seq<Line>, s: Step, t: Step)
    requires StepRenewed(u, v, s, t)
    ensures StepAt(u, s.start) == Some(s) && StepAt(v, s.start) == Some(t) && t.lines == Renewed(s.lines)
    ensures SameUpTo(u, v, s.start + 1) && SameFrom(u, s.end, v, t.end)
    ensures Cold(Shapes(s.lines)) ==> Cold(Shapes(t.lines))
  {
    hide StepAt, Renewed, SameUpTo, SameFrom, Cold;
  }

  lemma {:induction false} RestAtRenewed(u: seq<Line>, v: seq<Line>, s: Step, t: Step, ru: iset<nat>, rv: iset<nat>)
    requires StepRenewed(u, v, s, t) && s.start in ru && s.start !in rv
    requires forall y: nat | s.end <= y :: y in ru <==> y - s.end + t.end in rv
    ensures Rest(v, s.start, rv) == Rest(u, s.start, ru)
  {
    hide *;
    StepRenewedForm(u, v, s, t);
    StepForm(u, s);
    StepForm(v, t);
    ScanOn(u, s.start);
    ScanOn(v, s.start);
    RestShifts(u, s.end, v, t.end, s.end, ru, rv);
    IfHotForm(t.lines);
    if Cold(Shapes(s.lines)) {
      RestOn(u, s.start, s.end, ru);
    } else {
      RestFound(u, s.start, ru, s);
    }
    if Cold(Shapes(t.lines)) {
      RestOn(v, s.start, t.end, rv);
      NothingPrepended(Rest(u, s.end, ru));
    } else {
      RestFound(v, s.start, rv, t);
    }
  }

  lemma {:induction false} NothingPrepended(r: seq<seq<Line>>)
    ensures [] + r == r
  {
  }

  lemma {:induction false} IfHotForm(b: seq<Line>)
    ensures IfHot(b) == if Cold(Shapes(b)) then [] else [b]
  {
  }

  /** A scan that meets the install step gives the same, whether its script is still to be replaced or already was. */
  lemma {:induction false} RestOverRefresh(u: seq<Line>, v: seq<Line>, i: nat, s: Step, t: Step, ru: iset<nat>,
                                           rv: iset<nat>)
    requires Visits(u, i, s.start) && StepRenewed(u, v, s, t) && s.start in ru && s.start !in rv
    requires forall y: nat | i <= y < s.start :: y in ru <==> y in rv
    requires forall y: nat | s.end <= y :: y in ru <==> y - s.end + t.end in rv
    ensures Rest(v, i, rv) == Rest(u, i, ru)
    decreases |u| - i
  {
    hide *;
    StepRenewedForm(u, v, s, t);
    StepForm(u, s);
    VisitsForward(u, i, s.start);
    SameUpToForm(u, v, s.start + 1);
    if i == s.start {
      RestAtRenewed(u, v, s, t, ru, rv);
    } else {
      ScanOn(u, i);
      ScanOn(v, i);
      VisitsNext(u, i, s.start);
      SameStepBefore(u, v, s, i);
      var x := StepAt(u, i);
      var next := if x.None? then i + 1 else x.value.end;
      RestOverRefresh(u, v, next, s, t, ru, rv);
      if x.None? || Cold(Shapes(x.value.lines)) {
        RestOn(u, i, next, ru);
        RestOn(v, i, next, rv);
      } else {
        RestFound(u, i, ru, x.value);
        RestFound(v, i, rv, x.value);
      }
    }
  }

  lemma {:induction false} VisitsNext(lines: seq<Line>, i: nat, p: nat)
    requires Visits(lines, i, p) && i < p
    ensures var s := StepAt(lines, i);
            if s.None? then Visits(lines, i + 1, p) else Visits(lines, s.value.end, p) && s.value.end <= p
  {
    hide StepAt;
    var s := StepAt(lines, i);
    VisitsForward(lines, if s.None? then i + 1 else s.value.end, p);
  }

  lemma {:induction false} SameStepBefore(u: seq<Line>, v: seq<Line>, s: Step, i: nat)
    requires SameUpTo(u, v, s.start + 1) && StepAt(u, s.start) == Some(s) && i < s.start
    requires StepAt(u, i).Some? ==> StepAt(u, i).value.end <= s.start
    ensures StepAt(v, i) == StepAt(u, i)
  {
    hide *;
    StepForm(u, s);
    if StepAt(u, i).Some? {
      SameStepHere(u, v, s.start, i);
    } else {
      SameNoStep(u, v, s.start, i);
    }
  }

  lemma {:induction false} SameNoStep(u: seq<Line>, v: seq<Line>, x: nat, i: nat)
    requires SameUpTo(u, v, x + 1) && i < x && StepAt(u, i).None?
    ensures StepAt(v, i).None?
  {
    hide StepEnd;
    assert v[i] == u[i];
  }

  lemma {:induction false} SameStepHere(u: seq<Line>, v: seq<Line>, x: nat, i: nat)
    requires SameUpTo(u, v, x + 1) && i < x && StepAt(u, i).Some? && StepAt(u, i).value.end <= x
    ensures StepAt(v, i) == StepAt(u, i)
  {
    hide StepEnd;
    var s := StepAt(u, i).value;
    var e := s.end;
    hide StepAt;
    StepLinesThere(u, s);
    assert v[s.start] == u[s.start] && v[e] == u[e];
    SamePart(u, v, x + 1, s.start, e);
    PutForm(v, s.start, e);
    StepPut(v, s.start, e, s.lines, v, s.indent);
  }

  lemma {:induction false} SamePart(u: seq<Line>, v: seq<Line>, x: nat, a: nat, b: nat)
    requires SameUpTo(u, v, x) && a <= b <= x
    ensures u[a..b] == v[a..b]
  {
  }

  lemma {:induction false} PutForm(v: seq<Line>, a: nat, b: nat)
    requires a <= b <= |v|
    ensures v == v[..a] + v[a..b] + v[b..]
  {
  }

  // ---------------------------------------------------------------- preparing a job

  /** In the job, exactly the install step whose script is to be replaced is to be renewed, and none is afterwards;
      behind the job, which then ends `n` lines later, the same steps are. */
  ghost predicate Renewing(u: seq<Line>, k: Job, ru: iset<nat>, rv: iset<nat>, n: int) {
    var r, s := InstallRefresh(u, k.Bounds()), StepNamed(u, k.start, k.end, INSTALL_STEP_NAME);
    && (forall y: nat | k.steps < y < k.end :: y in ru <==> r.Some? && s.Some? && y == s.value.start)
    && (forall y: nat | k.steps < y < k.end + n :: y !in rv)
    && (forall y: nat | k.end <= y :: y in ru <==> y + n in rv)
  }

  lemma {:induction false} RenewingForm(u: seq<Line>, k: Job, ru: iset<nat>, rv: iset<nat>, n: int, s: Step)
    requires Renewing(u, k, ru, rv, n)
    requires InstallRefresh(u, k.Bounds()).Some? ==> StepNamed(u, k.start, k.end, INSTALL_STEP_NAME) == Some(s)
    ensures forall y: nat | k.steps < y < k.end :: y in ru <==> InstallRefresh(u, k.Bounds()).Some? && y == s.start
    ensures forall y: nat | k.steps < y < k.end + n :: y !in rv
    ensures forall y: nat | k.end <= y :: y in ru <==> y + n in rv
  {
    hide InstallRefresh, StepNamed, INSTALL_STEP_NAME;
  }

  /** Refreshing the install script leaves the steps that will be rewritten. */
  lemma {:induction false} RestRefreshed(u: seq<Line>, k: Job, f: nat, ru: iset<nat>, rv: iset<nat>)
    requires Stands(u, k, f) && RefreshBelow(u, k)
    requires Renewing(u, k, ru, rv, RefreshedJob(u, k).end - k.end)
    ensures var g := Frontier(u, k.Bounds(), f);
            0 <= g && Rest(AfterRefresh(u, InstallRefresh(u, k.Bounds())), g, rv) == Rest(u, f, ru)
  {
    hide *;
    StandsForm(u, k, f);
    JobForm(u, k);
    FrontierForm(u, k, f);
    var r := InstallRefresh(u, k.Bounds());
    if r.Some? {
      var s := InstallParts(u, k);
      InJobForm(k, s.start);
      RefreshNames(u, k.Bounds());
      NamedIs(u, k, s);
      RenewingForm(u, k, ru, rv, RefreshedJob(u, k).end - k.end, s);
      RefreshedText(u, r.value);
      StepNamedVisited(u, k.start, k.end, INSTALL_STEP_NAME);
      RefreshIsRenewal(u, k, s);
      RestOverInstall(u, k, f, s, r.value.0, r.value.1, AfterRefresh(u, r), ru, rv);
    } else {
      RenewingForm(u, k, ru, rv, 0, Step(0, 0, 0, []));
      SameAsItself(u, f);
      RestShifts(u, f, u, f, f, ru, rv);
    }
  }

  lemma {:induction false} SameAsItself(u: seq<Line>, f: nat)
    requires f <= |u|
    ensures SameFrom(u, f, u, f)
  {
  }

  lemma {:induction false} NamedIs(u: seq<Line>, k: Job, s: Step)
    requires StepNamed(u, k.Bounds().0, k.Bounds().1, INSTALL_STEP_NAME).Some?
    requires s == StepNamed(u, k.start, k.end, INSTALL_STEP_NAME).value
    ensures StepNamed(u, k.start, k.end, INSTALL_STEP_NAME) == Some(s)
  {
    hide StepNamed, INSTALL_STEP_NAME;
  }

  lemma {:induction false} RefreshIsRenewal(u: seq<Line>, k: Job, s: Step)
    requires InstallRefresh(u, k.Bounds()).Some? && StepNamed(u, k.start, k.end, INSTALL_STEP_NAME) == Some(s)
    ensures var r := InstallRefresh(u, k.Bounds()).value;
            && s.start <= r.0 < r.1 <= s.start + |s.lines|
            && Renewed(s.lines) == RefreshedBlock(s.lines, r.0 - s.start, r.1 - s.start)
  {
    hide Outdated, StepNamed, NamesOfSteps, INSTALL_STEP_NAME, RefreshedBlock;
  }

  lemma {:induction false} RestOverInstall(u: seq<Line>, k: Job, f: nat, s: Step, q: nat, p: nat, v: seq<Line>,
                                           ru: iset<nat>, rv: iset<nat>)
    requires Stands(u, k, f) && StepAt(u, s.start) == Some(s) && Visits(u, k.start, s.start) && k.Holds(s.start)
    requires s.start < q < p <= s.end <= k.end && RunExtent(Shapes(u), q, p) && Refreshed(Shapes(u), q, p, 4, Shapes(v))
    requires v == u[..q] + InstallRun(u[q].Indent()) + u[p..] && p - s.start <= |s.lines|
    requires Renewed(s.lines) == RefreshedBlock(s.lines, q - s.start, p - s.start)
    requires forall y: nat | k.steps < y < k.end :: y in ru <==> y == s.start
    requires forall y: nat | k.steps < y < k.end + |v| - |u| :: y !in rv
    requires forall y: nat | k.end <= y :: y in ru <==> y + |v| - |u| in rv
    ensures 0 <= Moved(f, q, p, 4) && Rest(v, Moved(f, q, p, 4), rv) == Rest(u, f, ru)
  {
    hide *;
    StandsForm(u, k, f);
    InJobForm(k, s.start);
    RunKeyThere(u, q, p);
    RefreshedStep(u, s, q, p, v);
    var b := RefreshedBlock(s.lines, q - s.start, p - s.start);
    var t := Step(s.start, s.start + |b|, s.indent, b);
    if Cold(Shapes(s.lines)) {
      RefreshedCold(u, s, q, p, v, t);
    }
    ReplacedForm(u, v, s.start, s.end, |b|);
    MovedForm(f, q, p);
    StepBlockForm(u, s);
    FrontierAside(Shapes(u), s.Block(), f);
    if f <= s.start {
      SplicedAt(u, q, p, InstallRun(u[q].Indent()), v);
      SameUpToLess(u, v, q, s.start + 1);
      AlignedIsVisited(u, k.start, f);
      VisitsBetween(u, k.start, f, s.start);
      StepRenewedIf(u, v, s, t);
      RestOverRefresh(u, v, f, s, t, ru, rv);
    } else {
      RestShifts(u, s.end, v, t.end, f, ru, rv);
    }
  }

  lemma {:induction false} StepRenewedIf(u: seq<Line>, v: seq<Line>, s: Step, t: Step)
    requires StepAt(u, s.start) == Some(s) && StepAt(v, s.start) == Some(t) && t.lines == Renewed(s.lines)
    requires SameUpTo(u, v, s.start + 1) && SameFrom(u, s.end, v, t.end)
    requires Cold(Shapes(s.lines)) ==> Cold(Shapes(t.lines))
    ensures StepRenewed(u, v, s, t)
  {
    hide StepAt, Renewed, SameUpTo, SameFrom, Cold;
  }

  lemma {:induction false} ReplacedForm(a: seq<Line>, u: seq<Line>, x: nat, y: nat, n: nat)
    requires Replaced(a, u, x, y, n)
    ensures SameUpTo(a, u, x) && SameFrom(a, y, u, x + n)
  {
    hide SameUpTo, SameFrom;
  }

  /** Ensuring the support steps in place leaves the steps that will be rewritten. */
  lemma {:induction false} RestSupported(u: seq<Line>, k: Job, s: Step, text: seq<Line>, ru: iset<nat>, cut: nat)
    returns (m: Job, g: nat)
    requires Stands(u, k, s.start) && StepAt(u, s.start) == Some(s) && s.start < k.end && RefreshBelow(u, k)
    requires !Misplaces(u, k.Bounds(), s)
    requires Renewing(u, k, ru, RenewsFrom(text, RefreshedJob(u, k).end, cut), RefreshedJob(u, k).end - k.end)
    ensures var w := WithSupport(u, k.Bounds(), s);
            && Stands(w, m, g) && m.start == k.start && SameFrom(u, k.end, w, m.end)
            && Rest(w, g, RenewsFrom(text, m.end, cut)) == Rest(u, s.start, ru)
  {
    hide *;
    m, g := SupportFollows(u, k, s);
    var v, w, f := AfterRefresh(u, InstallRefresh(u, k.Bounds())), WithSupport(u, k.Bounds(), s),
        Frontier(u, k.Bounds(), s.start);
    FollowsForm(u, k, s.start, w, m, g);
    var n := RefreshedJob(u, k).end;
    RestRefreshed(u, k, s.start, ru, RenewsFrom(text, n, cut));
    RefreshStands(u, k, s.start);
    SameLength(u, k.end, w, m.end);
    SameLength(v, f, w, g);
    RenewsMoves(text, n, cut, f, g);
    RestShifts(v, f, w, g, f, RenewsFrom(text, n, cut), RenewsFrom(text, m.end, cut));
  }

  // ---------------------------------------------------------------- what is renewed in a text

  /** Line `x` opens the install step of the job whose script is replaced when the job is prepared. */
  ghost predicate RenewsIn(text: seq<Line>, a: Job, x: nat)
    requires InText(text, a.Bounds())
  {
    var u, k := Axed(text, a), AxedJob(text, a);
    var s := StepNamed(u, k.start, k.end, INSTALL_STEP_NAME);
    InstallRefresh(u, k.Bounds()).Some? && s.Some? && x + |u| - |text| == s.value.start
  }

  ghost predicate Renews(text: seq<Line>, x: nat) {
    exists a: Job, d: nat :: FirstOfJob(text, a, d) && InText(text, a.Bounds()) && RenewsIn(text, a, x)
  }

  ghost predicate RenewsAt(text: seq<Line>, at: nat, cut: nat, y: nat) { at <= y && Renews(text, y - at + cut) }

  /** The lines that open install steps still to be renewed, when from line `at` on the text is that from `cut` on. */
  ghost function RenewsFrom(text: seq<Line>, at: nat, cut: nat): iset<nat> {
    iset y: nat | RenewsAt(text, at, cut, y)
  }

  lemma {:induction false} RenewsFromForm(text: seq<Line>, at: nat, cut: nat)
    ensures forall y: nat :: y in RenewsFrom(text, at, cut) <==> at <= y && Renews(text, y - at + cut)
  {
    hide Renews;
  }

  lemma {:induction false} RenewsMoves(text: seq<Line>, at: nat, cut: nat, i: nat, k: nat)
    requires 0 <= at - i + k
    ensures forall y: nat | i <= y :: y in RenewsFrom(text, at, cut) <==> y - i + k in RenewsFrom(text, at - i + k, cut)
  {
    hide Renews;
  }

  /** No install step whose script is replaced runs pytest itself. */
  ghost predicate InstallsQuiet(text: seq<Line>) {
    forall x: nat | Renews(text, x) && StepAt(text, x).Some? :: Cold(Shapes(StepAt(text, x).value.lines))
  }

  /** The steps of a text that are rewritten: those that run pytest, with new install scripts, as far as they still run
      pytest then. */
  ghost function Rewritable(text: seq<Line>): seq<seq<Line>> { Rest(text, 0, RenewsFrom(text, 0, 0)) }

  /** If no install step whose script is replaced runs pytest itself, these are just the steps that run pytest. */
  lemma {:induction false} QuietRewritable(text: seq<Line>)
    requires InstallsQuiet(text)
    ensures Rewritable(text) == PytestSteps(text, 0)
  {
    hide Renews, StepAt, Cold, Rest, PytestSteps;
    RenewsFromForm(text, 0, 0);
    RestIsAll(text, 0, RenewsFrom(text, 0, 0));
  }

  lemma {:induction false} RenewsInForm(text: seq<Line>, a: Job, x: nat)
    requires InText(text, a.Bounds())
    ensures var u, k := Axed(text, a), AxedJob(text, a);
            var s := StepNamed(u, k.start, k.end, INSTALL_STEP_NAME);
            RenewsIn(text, a, x)
            <==> InstallRefresh(u, k.Bounds()).Some? && s.Some? && x + |u| - |text| == s.value.start
  {
    hide InstallRefresh, StepNamed, Axed, AxedJob, INSTALL_STEP_NAME;
  }

  lemma {:induction false} BelowForm(u: seq<Line>, k: Job)
    requires RefreshBelow(u, k) && InstallRefresh(u, k.Bounds()).Some?
    ensures k.steps < StepNamed(u, k.start, k.end, INSTALL_STEP_NAME).value.start
    ensures StepNamed(u, k.start, k.end, INSTALL_STEP_NAME).value.start < k.end
  {
    hide NamesOfSteps, Outdated, StepName, NormalizedName, INSTALL_STEP_NAME, StepEnd;
    RefreshNames(u, k.Bounds());
    NamedBefore(u, k.start, k.end, INSTALL_STEP_NAME);
  }

  lemma {:induction false} NamedBefore(u: seq<Line>, i: nat, end: nat, name: string)
    requires StepNamed(u, i, end, name).Some?
    ensures StepNamed(u, i, end, name).value.start < end
    decreases end - i
  {
    hide NormalizedName, StepAt, StepNamed;
    StepNamedNext(u, i, end, name);
    var s := StepAt(u, i);
    if s.None? {
      NamedBefore(u, i + 1, end, name);
    } else if NormalizedName(s.value.lines) != Some(name) {
      StepForm(u, s.value);
      NamedBefore(u, s.value.end, end, name);
    } else {
      StepForm(u, s.value);
    }
  }

  /** What is renewed in a job stands below its steps key. */
  lemma {:induction false} RenewedHeld(text: seq<Line>, a: Job, x: nat)
    requires LaidOutJob(text, a) && InText(text, a.Bounds()) && RenewsIn(text, a, x)
    ensures a.steps < x < a.end
  {
    hide *;
    LaidOutParts(text, a);
    RenewsInForm(text, a, x);
    AxedForm(text, a, Step(0, 0, 0, []));
    BelowForm(Axed(text, a), AxedJob(text, a));
  }

  /** In a job that holds a pytest step, only its own install step is renewed. */
  lemma {:induction false} RenewsInJob(text: seq<Line>, a: Job, d: nat, x: nat)
    requires FirstOfJob(text, a, d) && InText(text, a.Bounds()) && a.steps < x < a.end
    ensures Renews(text, x) <==> RenewsIn(text, a, x)
  {
    hide RenewsIn, FirstOfJob;
    if Renews(text, x) {
      var c: Job, e: nat :| FirstOfJob(text, c, e) && InText(text, c.Bounds()) && RenewsIn(text, c, x);
      hide *;
      FirstOfJobForm(text, c, e);
      FirstOfJobForm(text, a, d);
      RenewedHeld(text, c, x);
      LaidOutForm(text, a);
      LaidOutForm(text, c);
      SameJob(text, a, c, x);
    }
  }

  /** The install step of a job does not depend on what stands before the job. */
  lemma {:induction false} SameInstall(text: seq<Line>, i: nat, lines: seq<Line>, j: nat, a: Job)
    requires SameFrom(text, i, lines, j) && LaidOutJob(text, a) && i <= a.start
    ensures var b := a.By(j - i);
            && InText(text, a.Bounds()) && InText(lines, b.Bounds())
            && var u0, k0, u, k := Axed(text, a), AxedJob(text, a), Axed(lines, b), AxedJob(lines, b);
               && |u| - |lines| == |u0| - |text| && k == Job(b.start, b.steps + |u| - |lines|, b.end + |u| - |lines|)
               && (InstallRefresh(u, k.Bounds()).Some? <==> InstallRefresh(u0, k0.Bounds()).Some?)
               && StepMoved(StepNamed(u0, k0.start, k0.end, INSTALL_STEP_NAME),
                            StepNamed(u, k.start, k.end, INSTALL_STEP_NAME), j - i)
  {
    hide *;
    LaidOutParts(text, a);
    JobForm(text, a);
    ByForm(a, j - i);
    AxedShifts(text, i, lines, j, a, Step(i, i, 0, []));
    AxedForm(text, a, Step(0, 0, 0, []));
    AxedForm(lines, a.By(j - i), Step(0, 0, 0, []));
    var u, k := Axed(text, a), AxedJob(text, a);
    ByForm(k, j - i);
    BoundsForm(k, j - i);
    RefreshShifts(u, i, Axed(lines, a.By(j - i)), j, k.Bounds());
    StepNamedShifts(u, i, Axed(lines, a.By(j - i)), j, k.start, k.end, INSTALL_STEP_NAME);
  }

  /** What a run that arrives at a job renews in it. */
  lemma {:induction false} ArrivedRenewing(text: seq<Line>, w: World, lines: seq<Line>, a: Job, b: Job, d: nat)
    requires SameFrom(text, w.cut, lines, w.at) && FirstOfJob(text, a, d) && w.cut <= a.start
    requires b == Job(a.start + w.at - w.cut, a.steps + w.at - w.cut, a.end + w.at - w.cut)
    requires InText(text, a.Bounds()) && InText(lines, b.Bounds())
    ensures var u, k, n := Axed(lines, b), AxedJob(lines, b), |Axed(lines, b)| - |lines|;
            var m := RefreshedJob(u, k).end;
            Renewing(u, k, RenewsFrom(text, w.at + n, w.cut), RenewsFrom(text, m, a.end), m - k.end)
  {
    hide *;
    FirstOfJobForm(text, a, d);
    LaidOutForm(text, a);
    ByForm(a, w.at - w.cut);
    SameInstall(text, w.cut, lines, w.at, a);
    var u, k, n := Axed(lines, b), AxedJob(lines, b), |Axed(lines, b)| - |lines|;
    var s0 := StepNamed(Axed(text, a), AxedJob(text, a).start, AxedJob(text, a).end, INSTALL_STEP_NAME);
    var s, m := StepNamed(u, k.start, k.end, INSTALL_STEP_NAME), RefreshedJob(u, k).end;
    StepMovedForm(s0, s, w.at - w.cut);
    var ru := RenewsFrom(text, w.at + n, w.cut);
    RenewsFromForm(text, w.at + n, w.cut);
    RenewsFromForm(text, m, a.end);
    forall y: nat | k.steps < y < k.end
      ensures y in ru <==> InstallRefresh(u, k.Bounds()).Some? && s.Some? && y == s.value.start
    {
      RenewsInJob(text, a, d, y - (w.at + n) + w.cut);
      RenewsInForm(text, a, y - (w.at + n) + w.cut);
    }
    RenewingIf(u, k, ru, RenewsFrom(text, m, a.end), m - k.end);
  }

  lemma {:induction false} RenewingIf(u: seq<Line>, k: Job, ru: iset<nat>, rv: iset<nat>, n: int)
    requires var r, s := InstallRefresh(u, k.Bounds()), StepNamed(u, k.start, k.end, INSTALL_STEP_NAME);
             forall y: nat | k.steps < y < k.end :: y in ru <==> r.Some? && s.Some? && y == s.value.start
    requires forall y: nat | k.steps < y < k.end + n :: y !in rv
    requires forall y: nat | k.end <= y :: y in ru <==> y + n in rv
    ensures Renewing(u, k, ru, rv, n)
  {
    hide InstallRefresh, StepNamed, INSTALL_STEP_NAME;
  }

  /** Preparing a job leaves the steps that will be rewritten, and reaches the first of them. */
  lemma {:induction false} StepsReady(text: seq<Line>, s: State, newline: nat, w: World, step: Step, a: Job, b: Job,
                                      m: Job, t: Step)
    requires Arrives(text, s, newline, w, step, a, b)
    requires InText(text, a.Bounds()) && !MatrixEdit(text, a.start, a.end).Conflict?
    requires !Stale(text, a, OriginStep(text, Origin(w, step)))
    requires InText(s.lines, b.Bounds())
    requires var u, k, s1 := Axed(s.lines, b), AxedJob(s.lines, b), AxedStep(s.lines, b, step);
             Ready(s.lines, b, step, WithSupport(u, k.Bounds(), s1), m, t)
    ensures var p := WithSupport(Axed(s.lines, b), AxedJob(s.lines, b).Bounds(), AxedStep(s.lines, b, step));
            && FirstStep(p, t.start) == Some(t)
            && Rest(p, t.start, RenewsFrom(text, m.end, a.end))
               == Rest(s.lines, s.search, RenewsFrom(text, w.at, w.cut))
  {
    hide *;
    ArrivesForm(text, s, newline, w, step, a, b);
    JobArrived(text, s, newline, w, step, a, b);
    InvForm(text, s, newline, w);
    LayoutForm(text, s.lines, s.search, w);
    LaidOutParts(s.lines, b);
    JobForm(s.lines, b);
    AxisHeads(s.lines, b, step);
    AxedForm(s.lines, b, step);
    StaleForm(s.lines, b, step);
    var u, k, s1 := Axed(s.lines, b), AxedJob(s.lines, b), AxedStep(s.lines, b, step);
    AxedStands(s.lines, b, u, k, s1);
    StandsForm(u, k, s1.start);
    HeadsForm(u, b.start, s1);
    GivenForm(s.lines, b, u);
    var p := WithSupport(u, k.Bounds(), s1);
    ReadyForm(s.lines, b, step, p, m, t);
    var d := Origin(w, step);
    FirstOfJobForm(text, a, d);
    LaidOutForm(text, a);
    FoundIsThere(s.lines, s.search);
    HeadLater(s.lines, b.start, step.start, step);
    RestOn(s.lines, s.search, step.start, RenewsFrom(text, w.at, w.cut));
    var n := |u| - |s.lines|;
    RenewsMoves(text, w.at, w.cut, b.steps, k.steps);
    var now, axed := RenewsFrom(text, w.at, w.cut), RenewsFrom(text, w.at + n, w.cut);
    RestShifts(s.lines, b.steps, u, k.steps, step.start, now, axed);
    ArrivedRenewing(text, w, s.lines, a, b, d);
    var m1, g := RestSupported(u, k, s1, text, axed, a.end);
    JobForm(p, m);
    HeadBehind(p, m1, g, t);
    StandsForm(p, m1, g);
    SameEnd(s.lines, b, u, k, p, m, m1);
    HeadLater(p, m.start, g, t);
    HeadLater(p, m.start, t.start, t);
    RestOn(p, g, t.start, RenewsFrom(text, m.end, a.end));
  }

  lemma {:induction false} SameEnd(lines: seq<Line>, b: Job, u: seq<Line>, k: Job, p: seq<Line>, m: Job, m1: Job)
    requires SameFrom(lines, b.end, p, m.end) && SameFrom(u, k.end, p, m1.end)
    requires |u| - k.end == |lines| - b.end
    ensures m.end == m1.end
  {
    SameLength(lines, b.end, p, m.end);
    SameLength(u, k.end, p, m1.end);
  }

  /** Rewriting the first of the steps leaves the others. */
  lemma {:induction false} StepsRewritten(text: seq<Line>, lines: seq<Line>, search: nat, t: Step, at: nat, cut: nat)
    requires AllRead(lines) && FirstStep(lines, search) == Some(t) && t.end <= at
    ensures var n := |RewriteLines(t.lines, t.indent)|;
            && 0 <= at + n - (t.end - t.start)
            && Rest(lines, search, RenewsFrom(text, at, cut))
               == [t.lines] + Rest(Rewriting(lines, t), t.start + n, RenewsFrom(text, at + n - (t.end - t.start), cut))
  {
    hide *;
    FoundIsThere(lines, search);
    RestFound(lines, search, RenewsFrom(text, at, cut), t);
    RenewsFromForm(text, at, cut);
    IfHotForm(t.lines);
    RewriteReplaces(lines, t);
    var n := |RewriteLines(t.lines, t.indent)|;
    ReplacedForm(lines, Rewriting(lines, t), t.start, t.end, n);
    RenewsMoves(text, at, cut, t.end, t.start + n);
    RestShifts(lines, t.end, Rewriting(lines, t), t.start + n, t.end, RenewsFrom(text, at, cut),
               RenewsFrom(text, at + n - (t.end - t.start), cut));
  }
}
