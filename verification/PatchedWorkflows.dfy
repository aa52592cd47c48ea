/** Whole runs over a laid-out workflow: how they end, and what the patched text is. */
module PatchedWorkflows {
  import opened PyStrings
  import opened StepBlocks
  import opened WorkflowLines
  import opened StepRewriter
  import opened RewrittenSteps
  import opened JobMatrix
  import opened TextPatcher
  import opened WorkflowPatcher
  import opened PlainRuns
  import opened JobLayouts
  import opened JobHeaders
  import opened JobPreparation
  import opened LaidOutJobs
  import opened LaidOutRuns
  import opened SwallowedJobs
  import opened LineOrigins
  import opened SupportNames
  import opened StepLists
  import opened StandingSteps

  // ---------------------------------------------------------------- what a log says

  /** The lines of the steps that were rewritten, in order. */
  ghost function Rewrote(log: seq<Change>): seq<seq<Line>> {
    if log == [] then [] else (if log[0].StepRewritten? then [log[0].step.lines] else []) + Rewrote(log[1..])
  }

  /** Where the jobs started that were given an axis, in order. */
  ghost function AxisStarts(log: seq<Change>): seq<nat> {
    if log == [] then [] else (if log[0].AxisEnsured? then [log[0].job.0] else []) + AxisStarts(log[1..])
  }

  /** Where the jobs started that were given support steps, in order. */
  ghost function SupportStarts(log: seq<Change>): seq<nat> {
    if log == [] then [] else (if log[0].SupportEnsured? then [log[0].job.0] else []) + SupportStarts(log[1..])
  }

  lemma {:induction false} AppendNext(a: seq<Change>, b: seq<Change>)
    requires a != []
    ensures (a + b)[1..] == a[1..] + b && (a + b)[0] == a[0] && a + b != []
  {
  }

  lemma {:induction false} RewroteApart(a: seq<Change>, b: seq<Change>)
    ensures Rewrote(a + b) == Rewrote(a) + Rewrote(b)
    decreases |a|
  {
    if a == [] {
      assert a + b == b;
    } else {
      AppendNext(a, b);
      RewroteApart(a[1..], b);
    }
  }

  lemma {:induction false} AxisApart(a: seq<Change>, b: seq<Change>)
    ensures AxisStarts(a + b) == AxisStarts(a) + AxisStarts(b)
    decreases |a|
  {
    if a == [] {
      assert a + b == b;
    } else {
      AppendNext(a, b);
      AxisApart(a[1..], b);
    }
  }

  lemma {:induction false} SupportApart(a: seq<Change>, b: seq<Change>)
    ensures SupportStarts(a + b) == SupportStarts(a) + SupportStarts(b)
    decreases |a|
  {
    if a == [] {
      assert a + b == b;
    } else {
      AppendNext(a, b);
      SupportApart(a[1..], b);
    }
  }

  lemma {:induction false} LogsApart(a: seq<Change>, b: seq<Change>)
    ensures Rewrote(a + b) == Rewrote(a) + Rewrote(b)
    ensures AxisStarts(a + b) == AxisStarts(a) + AxisStarts(b)
    ensures SupportStarts(a + b) == SupportStarts(a) + SupportStarts(b)
  {
    hide *;
    RewroteApart(a, b);
    AxisApart(a, b);
    SupportApart(a, b);
  }

  lemma {:induction false} LogOfStep(p: seq<Line>, t: Step)
    ensures Rewrote([StepRewritten(p, t)]) == [t.lines]
    ensures AxisStarts([StepRewritten(p, t)]) == [] == SupportStarts([StepRewritten(p, t)])
  {
    assert [StepRewritten(p, t)][1..] == [];
  }

  lemma {:induction false} LogOfJob(a: Change, b: Change, p: seq<Line>, t: Step)
    requires a.AxisEnsured? && b.SupportEnsured?
    ensures var log := [a, b, StepRewritten(p, t)];
            Rewrote(log) == [t.lines] && AxisStarts(log) == [a.job.0] && SupportStarts(log) == [b.job.0]
  {
    LogOfStep(p, t);
    assert [a, b, StepRewritten(p, t)] == [a] + ([b] + [StepRewritten(p, t)]);
    LogsApart([a], [b] + [StepRewritten(p, t)]);
    LogsApart([b], [StepRewritten(p, t)]);
    assert [a][1..] == [] && [b][1..] == [];
  }

  /** The step, given by its lines, still runs pytest when rewritten. */
  ghost predicate Lingers(b: seq<Line>) { StaysHot(b, DepthOf(b)) }

  ghost predicate NoneLingers(steps: seq<seq<Line>>) { forall b | b in steps :: !Lingers(b) }

  lemma {:induction false} NoneLingersApart(a: seq<seq<Line>>, b: seq<seq<Line>>)
    ensures NoneLingers(a + b) <==> NoneLingers(a) && NoneLingers(b)
  {
    hide Lingers;
    assert forall x | x in a :: x in a + b;
    assert forall x | x in b :: x in a + b;
  }

  lemma {:induction false} StepLingers(log: seq<Change>, p: seq<Line>, t: Step)
    requires StepAt(p, t.start) == Some(t) && forall c | c in log :: !c.StepRewritten?
    ensures NoneStaysHot(log + [StepRewritten(p, t)]) <==> NoneLingers([t.lines])
  {
    StepLinesThere(p, t);
    hide StepAt, StaysHot;
    assert t.lines[0] == p[t.start];
    assert DepthOf(t.lines) == t.indent;
    var all := log + [StepRewritten(p, t)];
    assert StepRewritten(p, t) in all && t.lines in [t.lines];
    hide DepthOf;
  }

  // ---------------------------------------------------------------- what a run carries

  /** Where a run stands: its jobs, where its lines come from, and the steps it rewrote. */
  datatype Trail = Trail(world: World, src: seq<int>, stands: seq<Stand>)

  ghost predicate Supported(text: seq<Line>, lines: seq<Line>, search: nat, places: seq<Place>) {
    SupportNamed(text) ==>
      AllHeld(lines, search, places, INSTALL_STEP_NAME)
      && AllHeld(lines, search, places, SELECT_STEP_NAME)
  }

  ghost predicate Whole(text: seq<Line>, s: State, newline: nat, x: Trail) {
    && 0 < newline && Inv(text, s, newline, x.world) && Mapped(text, s.lines, s.search, x.world, x.src)
    && AllStand(s.lines, s.search, x.stands) && Supported(text, s.lines, s.search, x.world.places)
  }

  lemma {:induction false} WholeForm(text: seq<Line>, s: State, newline: nat, x: Trail)
    requires Whole(text, s, newline, x)
    ensures 0 < newline && Inv(text, s, newline, x.world) && Mapped(text, s.lines, s.search, x.world, x.src)
    ensures AllStand(s.lines, s.search, x.stands) && Supported(text, s.lines, s.search, x.world.places)
  {
    hide Inv, Mapped, AllStand, Supported;
  }

  lemma {:induction false} WholeIf(text: seq<Line>, s: State, newline: nat, x: Trail)
    requires 0 < newline && Inv(text, s, newline, x.world) && Mapped(text, s.lines, s.search, x.world, x.src)
    requires AllStand(s.lines, s.search, x.stands) && Supported(text, s.lines, s.search, x.world.places)
    ensures Whole(text, s, newline, x)
  {
    hide Inv, Mapped, AllStand, Supported;
  }

  function StartsOf(places: seq<Place>): seq<nat> { seq(|places|, i requires 0 <= i < |places| => places[i].now.start) }

  function WasOf(stands: seq<Stand>): seq<seq<Line>> { seq(|stands|, i requires 0 <= i < |stands| => stands[i].was) }

  /** The steps that are still to be rewritten. */
  ghost function StillAhead(text: seq<Line>, s: State, x: Trail): seq<seq<Line>> {
    Rest(s.lines, s.search, RenewsFrom(text, x.world.at, x.world.cut))
  }

  /** What the changes of a log add: every new job has its axis and its support steps ensured once, in order, and the
      steps that are rewritten are the next ones that run pytest. */
  ghost predicate Adds(text: seq<Line>, s: State, n: State, x: Trail, y: Trail, log: seq<Change>) {
    && StartsOf(y.world.places) == StartsOf(x.world.places) + AxisStarts(log)
    && StartsOf(y.world.places) == StartsOf(x.world.places) + SupportStarts(log)
    && WasOf(y.stands) == WasOf(x.stands) + Rewrote(log)
    && StillAhead(text, s, x) == Rewrote(log) + StillAhead(text, n, y)
    && (NoneStaysHot(log) <==> NoneLingers(Rewrote(log)))
    && AllInPlace(log)
  }

  lemma {:induction false} AddsNothing(text: seq<Line>, s: State, x: Trail)
    ensures Adds(text, s, s, x, x, [])
  {
    hide StillAhead, StartsOf, WasOf;
    assert Rewrote([]) == [] && AxisStarts([]) == [] && SupportStarts([]) == [];
  }

  lemma {:induction false} AddsTwice(text: seq<Line>, s: State, m: State, n: State, x: Trail, y: Trail, z: Trail,
                                     a: seq<Change>, b: seq<Change>)
    requires Adds(text, s, m, x, y, a) && Adds(text, m, n, y, z, b)
    ensures Adds(text, s, n, x, z, a + b)
  {
    hide StillAhead, StartsOf, WasOf, NoneStaysHot, NoneLingers, AllInPlace, Rewrote, AxisStarts;
    hide SupportStarts;
    LogsApart(a, b);
    NoneLingersApart(Rewrote(a), Rewrote(b));
    InPlaceApart(a, b);
  }

  lemma {:induction false} AddsIf(text: seq<Line>, s: State, n: State, x: Trail, y: Trail, log: seq<Change>)
    requires StartsOf(y.world.places) == StartsOf(x.world.places) + AxisStarts(log)
    requires StartsOf(y.world.places) == StartsOf(x.world.places) + SupportStarts(log)
    requires WasOf(y.stands) == WasOf(x.stands) + Rewrote(log)
    requires StillAhead(text, s, x) == Rewrote(log) + StillAhead(text, n, y)
    requires NoneStaysHot(log) <==> NoneLingers(Rewrote(log))
    requires AllInPlace(log)
    ensures Adds(text, s, n, x, y, log)
  {
    hide StillAhead, StartsOf, WasOf, NoneStaysHot, NoneLingers, AllInPlace, Rewrote, AxisStarts;
    hide SupportStarts;
  }

  lemma {:induction false} StartsGrow(w: World, n: int)
    requires w.places != [] && 0 <= w.at + n && 0 <= w.Last().now.end + n
    ensures StartsOf(Grow(w, n).places) == StartsOf(w.places)
  {
    GrowForm(w, n);
  }

  lemma {:induction false} StartsAdd(places: seq<Place>, p: Place)
    ensures StartsOf(places + [p]) == StartsOf(places) + [p.now.start]
  {
  }

  lemma {:induction false} WasAdds(stands: seq<Stand>, s: Stand)
    ensures WasOf(stands + [s]) == WasOf(stands) + [s.was]
  {
  }

  // ---------------------------------------------------------------- a round in the last job

  lemma {:induction false} HeldAllFurther(lines: seq<Line>, search: nat, further: nat, places: seq<Place>, name: string)
    requires AllHeld(lines, search, places, name) && search <= further
    ensures AllHeld(lines, further, places, name)
  {
    hide Held;
    forall p | p in places
      ensures Held(lines, p.now.start, p.now.end, further, name)
    {
      HeldFurther(lines, p.now.start, p.now.end, search, name, further);
    }
  }

  lemma {:induction false} SupportedRewrite(text: seq<Line>, lines: seq<Line>, w: World, search: nat, t: Step, v: World)
    requires Layout(text, lines, t.start, w) && Settled(text, lines, w.places) && w.places != []
    requires t.start < w.at && StepAt(lines, t.start) == Some(t) && !Cold(Shapes(t.lines)) && Regrown(w, t, v)
    requires Supported(text, lines, search, w.places) && search <= t.start
    ensures Supported(text, Rewriting(lines, t), t.start + |RewriteLines(t.lines, t.indent)|, v.places)
  {
    hide Layout, Settled, StepAt, Cold, Regrown, AllHeld, Rewriting, RewriteLines, INSTALL_STEP_NAME, SELECT_STEP_NAME;
    hide SupportNamed;
    if SupportNamed(text) {
      HeldAllFurther(lines, search, t.start, w.places, INSTALL_STEP_NAME);
      HeldAllFurther(lines, search, t.start, w.places, SELECT_STEP_NAME);
      AllHeldRewrite(text, lines, w, t, v, INSTALL_STEP_NAME);
      AllHeldRewrite(text, lines, w, t, v, SELECT_STEP_NAME);
    }
  }

  lemma {:induction false} OnInJob(text: seq<Line>, s: State, newline: nat, x: Trail, step: Step)
    returns (n: State, y: Trail, log: seq<Change>)
    requires Whole(text, s, newline, x) && FirstStep(s.lines, s.search) == Some(step) && step.start < x.world.at
    ensures RoundOf(s, newline) == Done(n, log) && Advances(text, s, newline, n, y.world)
    ensures Whole(text, n, newline, y) && Adds(text, s, n, x, y, log) && y.world.cut == x.world.cut
  {
    hide *;
    WholeForm(text, s, newline, x);
    var w := x.world;
    InvForm(text, s, newline, w);
    LayoutForm(text, s.lines, s.search, w);
    FoundHeads(s.lines, s.search, s.search, step);
    HeadsForm(s.lines, s.search, step);
    var v;
    n, v := RoundInJob(text, s, newline, w, step);
    RegrownForm(w, step, v);
    LayoutLater(text, s.lines, s.search, w, step.start);
    RewriteLayout(text, s.lines, w, step);
    LastForm(w);
    var from := MappedRewrite(text, s.lines, s.search, w, x.src, step, v);
    StandsMore(s.lines, s.search, x.stands, step);
    SupportedRewrite(text, s.lines, w, s.search, step, v);
    y := Trail(v, from, x.stands + [Stand(step.start, step.lines)]);
    AdvancesForm(text, s, newline, n, v);
    WholeIf(text, n, newline, y);
    log := [StepRewritten(s.lines, step)];
    LogOfStep(s.lines, step);
    StartsGrow(w, |RewriteLines(step.lines, step.indent)| - (step.end - step.start));
    GrowForm(w, |RewriteLines(step.lines, step.indent)| - (step.end - step.start));
    WasAdds(x.stands, Stand(step.start, step.lines));
    StepsRewritten(text, s.lines, s.search, step, w.at, w.cut);
    AheadOf(text, s, x);
    AheadOf(text, n, y);
    NothingBefore(StepRewritten(s.lines, step));
    StepLingers([], s.lines, step);
    StepInPlace(s.lines, step);
    NothingAdded(StartsOf(w.places));
    AddsIf(text, s, n, x, y, log);
  }

  lemma {:induction false} NothingAdded(s: seq<nat>)
    ensures s + [] == s
  {
  }

  lemma {:induction false} StepInPlace(p: seq<Line>, t: Step)
    ensures AllInPlace([StepRewritten(p, t)])
  {
  }

  lemma {:induction false} AdvancesForm(text: seq<Line>, s: State, newline: nat, n: State, w: World)
    requires Advances(text, s, newline, n, w)
    ensures Inv(text, n, newline, w) && s.search <= |s.lines| && n.search <= |n.lines|
    ensures HotsFrom(Shapes(n.lines), n.search) < HotsFrom(Shapes(s.lines), s.search)
  {
    hide Inv, HotsFrom;
  }

  // ---------------------------------------------------------------- a round on a new job

  lemma {:induction false} SupportedReady(text: seq<Line>, s: State, newline: nat, w: World, step: Step, a: Job, b: Job,
                                          p: seq<Line>, m: Job, t: Step)
    requires Arrives(text, s, newline, w, step, a, b) && Supported(text, s.lines, s.search, w.places)
    requires InText(text, a.Bounds()) && !MatrixEdit(text, a.start, a.end).Conflict?
    requires !Stale(text, a, OriginStep(text, Origin(w, step)))
    requires InText(s.lines, b.Bounds())
    requires p == WithSupport(Axed(s.lines, b), AxedJob(s.lines, b).Bounds(), AxedStep(s.lines, b, step))
    requires Ready(s.lines, b, step, p, m, t)
    ensures Supported(text, p, t.start, w.places + [Place(a, m)])
  {
    hide AllHeld, Arrives, Ready, WithSupport, Axed, AxedJob, AxedStep, INSTALL_STEP_NAME, SELECT_STEP_NAME;
    hide SupportNamed, MatrixEdit, Stale;
    if SupportNamed(text) {
      AllHeldReady(text, s, newline, w, step, a, b, m, t, INSTALL_STEP_NAME);
      AllHeldReady(text, s, newline, w, step, a, b, m, t, SELECT_STEP_NAME);
    }
  }

  lemma {:induction false} OnNewJob(text: seq<Line>, s: State, newline: nat, x: Trail, step: Step, a: Job, b: Job)
    returns (n: State, y: Trail, log: seq<Change>)
    requires Whole(text, s, newline, x) && Arrives(text, s, newline, x.world, step, a, b) && InText(text, a.Bounds())
    requires Fine(text, a, OriginStep(text, Origin(x.world, step)))
    ensures RoundOf(s, newline) == Done(n, log) && Advances(text, s, newline, n, y.world)
    ensures Whole(text, n, newline, y) && Adds(text, s, n, x, y, log) && y.world.cut == a.end
  {
    hide *;
    WholeForm(text, s, newline, x);
    var w := x.world;
    ArrivesForm(text, s, newline, w, step, a, b);
    JobArrived(text, s, newline, w, step, a, b);
    FineForm(text, a, OriginStep(text, Origin(w, step)));
    InvForm(text, s, newline, w);
    LayoutForm(text, s.lines, s.search, w);
    var v, u, k, s1, p, m, t;
    n, v, u, k, s1, p, m, t := RoundFine(text, s, newline, w, step, a, b);
    var z, ls := World(a.end, m.end, w.places + [Place(a, m)]), RewriteLines(t.lines, t.indent);
    ReadyForm(s.lines, b, step, p, m, t);
    JobForm(p, m);
    ReadyLayout(text, s, newline, w, step, a, b, p, m, t);
    LastForm(z);
    RewriteLayout(text, p, z, t);
    RegrownForm(z, t, v);
    var mid := MappedReady(text, s, newline, w, step, a, b, x.src, m, t);
    var from := MappedRewrite(text, p, t.start, z, mid, t, v);
    SupportedReady(text, s, newline, w, step, a, b, p, m, t);
    SupportedRewrite(text, p, z, t.start, t, v);
    AgreeBefore(s.lines, p, s.search, b.start + 1);
    AllStandStay(s.lines, p, s.search, t.start, x.stands);
    StandsMore(p, t.start, x.stands, t);
    y := Trail(v, from, x.stands + [Stand(t.start, t.lines)]);
    AdvancesForm(text, s, newline, n, v);
    WholeIf(text, n, newline, y);
    log := [AxisEnsured(s.lines, b.Bounds()), SupportEnsured(u, k.Bounds(), s1), StepRewritten(p, t)];
    LogOfJob(AxisEnsured(s.lines, b.Bounds()), SupportEnsured(u, k.Bounds(), s1), p, t);
    JobStart(b);
    JobStart(k);
    StartsGrow(z, |ls| - (t.end - t.start));
    StartsAdd(w.places, Place(a, m));
    WasAdds(x.stands, Stand(t.start, t.lines));
    StepsOnNewJob(text, s, newline, w, step, a, b, p, m, t);
    AheadOf(text, s, x);
    AheadOf(text, n, y);
    LingersOnNewJob(AxisEnsured(s.lines, b.Bounds()), SupportEnsured(u, k.Bounds(), s1), p, t);
    AddsIf(text, s, n, x, y, log);
  }

  lemma {:induction false} JobStart(j: Job)
    ensures j.Bounds().0 == j.start
  {
  }

  lemma {:induction false} LingersOnNewJob(a: Change, b: Change, p: seq<Line>, t: Step)
    requires a.AxisEnsured? && b.SupportEnsured? && StepAt(p, t.start) == Some(t)
    ensures NoneStaysHot([a, b, StepRewritten(p, t)]) <==> NoneLingers([t.lines])
  {
    hide NoneStaysHot, NoneLingers, StepAt;
    assert [a, b, StepRewritten(p, t)] == [a, b] + [StepRewritten(p, t)];
    StepLingers([a, b], p, t);
  }

  lemma {:induction false} StepsOnNewJob(text: seq<Line>, s: State, newline: nat, w: World, step: Step, a: Job, b: Job,
                                         p: seq<Line>, m: Job, t: Step)
    requires Arrives(text, s, newline, w, step, a, b)
    requires InText(text, a.Bounds()) && !MatrixEdit(text, a.start, a.end).Conflict?
    requires !Stale(text, a, OriginStep(text, Origin(w, step)))
    requires InText(s.lines, b.Bounds())
    requires p == WithSupport(Axed(s.lines, b), AxedJob(s.lines, b).Bounds(), AxedStep(s.lines, b, step))
    requires Ready(s.lines, b, step, p, m, t)
    requires t.end <= m.end
    ensures var n := |RewriteLines(t.lines, t.indent)|;
            && 0 <= m.end + n - (t.end - t.start)
            && Rest(s.lines, s.search, RenewsFrom(text, w.at, w.cut))
               == [t.lines] + Rest(Rewriting(p, t), t.start + n,
                                   RenewsFrom(text, m.end + n - (t.end - t.start), a.end))
  {
    hide *;
    ReadyForm(s.lines, b, step, p, m, t);
    StepsReady(text, s, newline, w, step, a, b, m, t);
    StepLists.StepsRewritten(text, p, t.start, t, m.end, a.end);
  }

  lemma {:induction false} AheadOf(text: seq<Line>, s: State, x: Trail)
    ensures StillAhead(text, s, x) == Rest(s.lines, s.search, RenewsFrom(text, x.world.at, x.world.cut))
  {
    hide Rest, RenewsFrom;
  }

  // ---------------------------------------------------------------- what a run may meet

  /** What may stand in the way of a job: another axis, support steps that would be misplaced, or nothing left to
      rewrite. */
  datatype Trouble = OtherAxis | Misplacing | Swallowing

  /** The job of first pytest step `d` meets the trouble. */
  ghost predicate Meets(text: seq<Line>, a: Job, d: nat, t: Trouble) {
    FirstOfJob(text, a, d) && InText(text, a.Bounds()) &&
    match t
    case OtherAxis => MatrixEdit(text, a.start, a.end).Conflict?
    case Misplacing => Stale(text, a, OriginStep(text, d))
    case Swallowing => Swallowed(text, a)
  }

  ghost predicate MeetsFrom(text: seq<Line>, cut: nat, t: Trouble) { exists a: Job, d: nat ::
                            cut <= d && Meets(text, a, d, t) }

  /** Nothing that runs pytest follows a job whose pytest runs are all in its install script. */
  ghost predicate SwallowsLast(text: seq<Line>) {
    forall a: Job, d: nat | Meets(text, a, d, Swallowing) :: forall e: nat | PytestStep(text, e) :: e < a.end
  }

  lemma {:induction false} MeetsForm(text: seq<Line>, a: Job, d: nat, t: Trouble)
    requires FirstOfJob(text, a, d) && InText(text, a.Bounds())
    ensures Meets(text, a, d, OtherAxis) <==> MatrixEdit(text, a.start, a.end).Conflict?
    ensures Meets(text, a, d, Misplacing) <==> Stale(text, a, OriginStep(text, d))
    ensures Meets(text, a, d, Swallowing) <==> Swallowed(text, a)
  {
    hide FirstOfJob, MatrixEdit, Stale, Swallowed, OriginStep;
  }

  lemma {:induction false} MeetsIsFirst(text: seq<Line>, a: Job, d: nat, t: Trouble)
    requires Meets(text, a, d, t)
    ensures FirstOfJob(text, a, d)
  {
    hide FirstOfJob, MatrixEdit, Stale, Swallowed, OriginStep;
  }

  /** A first pytest step behind the cut is the one found, or belongs to a later job. */
  lemma {:induction false} FirstsApart(text: seq<Line>, s: State, newline: nat, w: World, step: Step, a: Job, b: Job,
                                       c: Job, e: nat)
    requires Arrives(text, s, newline, w, step, a, b) && FirstOfJob(text, c, e) && w.cut <= e
    ensures (c == a && e == Origin(w, step)) || a.end <= e
  {
    hide *;
    ArrivesForm(text, s, newline, w, step, a, b);
    InvForm(text, s, newline, w);
    var d := Origin(w, step);
    FirstOfJobForm(text, a, d);
    FirstOfJobForm(text, c, e);
    if e < d {
      NoneBetween(text, s.lines, s.search, w, step, e);
    } else if e < a.end {
      LaidOutForm(text, a);
      LaidOutForm(text, c);
      SameJob(text, a, c, e);
      OnlyFirst(text, a, d, e);
    }
  }

  lemma {:induction false} OnlyFirst(text: seq<Line>, a: Job, d: nat, e: nat)
    requires FirstOfJob(text, a, d) && FirstOfJob(text, a, e)
    ensures d == e
  {
    hide LaidOutJob, PytestStep;
  }

  lemma {:induction false} MeetsSplits(text: seq<Line>, s: State, newline: nat, w: World, step: Step, a: Job, b: Job,
                                       t: Trouble)
    requires Arrives(text, s, newline, w, step, a, b)
    ensures MeetsFrom(text, w.cut, t) <==> Meets(text, a, Origin(w, step), t) || MeetsFrom(text, a.end, t)
  {
    hide *;
    ArrivesForm(text, s, newline, w, step, a, b);
    FirstOfJobForm(text, a, Origin(w, step));
    LaidOutForm(text, a);
    if MeetsFrom(text, w.cut, t) {
      var c, e := TroubleAt(text, w.cut, t);
      MeetsIsFirst(text, c, e, t);
      FirstsApart(text, s, newline, w, step, a, b, c, e);
      if a.end <= e {
        MeetsFromIf(text, a.end, c, e, t);
      }
    } else if MeetsFrom(text, a.end, t) {
      var c, e := TroubleAt(text, a.end, t);
      MeetsFromIf(text, w.cut, c, e, t);
    } else if Meets(text, a, Origin(w, step), t) {
      MeetsFromIf(text, w.cut, a, Origin(w, step), t);
    }
  }

  lemma {:induction false} TroubleAt(text: seq<Line>, cut: nat, t: Trouble) returns (a: Job, d: nat)
    requires MeetsFrom(text, cut, t)
    ensures cut <= d && Meets(text, a, d, t)
  {
    hide Meets;
    a, d :| cut <= d && Meets(text, a, d, t);
  }

  lemma {:induction false} MeetsFromIf(text: seq<Line>, cut: nat, a: Job, d: nat, t: Trouble)
    requires cut <= d && Meets(text, a, d, t)
    ensures MeetsFrom(text, cut, t)
  {
    hide Meets;
  }

  // ---------------------------------------------------------------- runs

  /** What a run over a laid-out workflow needs to know of a state: where it stands, and enough rounds for what is
      left. */
  ghost predicate Runs(text: seq<Line>, s: State, newline: nat, w: World, rounds: nat) {
    && 0 < newline && LaidOut(text) && Inv(text, s, newline, w)
    && s.search <= |s.lines| && HotsFrom(Shapes(s.lines), s.search) <= rounds
  }

  lemma {:induction false} RunsForm(text: seq<Line>, s: State, newline: nat, w: World, rounds: nat)
    requires Runs(text, s, newline, w, rounds)
    ensures 0 < newline && LaidOut(text) && Inv(text, s, newline, w)
    ensures s.search <= |s.lines| && HotsFrom(Shapes(s.lines), s.search) <= rounds
  {
    hide LaidOut, Inv, HotsFrom;
  }

  lemma {:induction false} RunsNext(text: seq<Line>, s: State, newline: nat, w: World, rounds: nat, n: State, v: World)
    requires Runs(text, s, newline, w, rounds) && Advances(text, s, newline, n, v)
    ensures 0 < rounds && Runs(text, n, newline, v, rounds - 1)
  {
    hide LaidOut, Inv, HotsFrom;
  }

  lemma {:induction false} RoundsOver(s: State, newline: nat, rounds: nat, n: State, log: seq<Change>)
    requires RoundOf(s, newline) == Done(n, log) && 0 < rounds
    ensures var all, rest := Rounds(s, newline, rounds), Rounds(n, newline, rounds - 1);
            all.outcome == rest.outcome && all.log == log + rest.log
                && (AllInPlace(all.log) <==> AllInPlace(log) && AllInPlace(rest.log))
  {
    hide RoundOf, AllInPlace;
    RoundsNext(s, newline, rounds);
  }

  lemma {:induction false} RoundsOut(s: State, newline: nat, rounds: nat)
    ensures RoundOf(s, newline).Idle? ==> Rounds(s, newline, rounds) == Result(Patched(s.lines), [])
    ensures RoundOf(s, newline).Broken? ==> Rounds(s, newline, rounds).outcome == Failed(RoundOf(s, newline).error)
  {
    hide RoundOf;
  }

  lemma {:induction false} IdleIsNone(s: State, newline: nat)
    requires FirstStep(s.lines, s.search).None?
    ensures RoundOf(s, newline) == Idle
  {
    hide *;
    RoundFinds(s, newline);
  }

  lemma {:induction false} FineIf(text: seq<Line>, a: Job, d: nat)
    requires FirstOfJob(text, a, d) && InText(text, a.Bounds())
    requires !Meets(text, a, d, OtherAxis) && !Meets(text, a, d, Misplacing) && !Meets(text, a, d, Swallowing)
    ensures Fine(text, a, OriginStep(text, d))
  {
    hide *;
    MeetsForm(text, a, d, OtherAxis);
    FineForms(text, a, OriginStep(text, d));
  }

  lemma {:induction false} FineForms(text: seq<Line>, a: Job, s: Step)
    requires InText(text, a.Bounds()) && !MatrixEdit(text, a.start, a.end).Conflict? && !Stale(text, a, s)
    requires !Swallowed(text, a)
    ensures Fine(text, a, s)
  {
    hide MatrixEdit, Stale, Swallowed;
  }

  /** A run that meets no trouble patches the text. */
  lemma {:induction false} RunsThrough(text: seq<Line>, s: State, newline: nat, x: Trail, rounds: nat)
    returns (n: State, y: Trail)
    requires Whole(text, s, newline, x) && Runs(text, s, newline, x.world, rounds)
    requires forall t: Trouble :: !MeetsFrom(text, x.world.cut, t)
    ensures Rounds(s, newline, rounds).outcome == Patched(n.lines)
    ensures Adds(text, s, n, x, y, Rounds(s, newline, rounds).log)
    ensures Whole(text, n, newline, y) && FirstStep(n.lines, n.search).None?
    decreases rounds
  {
    hide *;
    WholeForm(text, s, newline, x);
    RunsForm(text, s, newline, x.world, rounds);
    if FirstStep(s.lines, s.search).None? {
      IdleIsNone(s, newline);
      RoundsOut(s, newline, rounds);
      AddsNothing(text, s, x);
      return s, x;
    }
    var step := FirstStep(s.lines, s.search).value;
    var m, z, log;
    if step.start < x.world.at {
      m, z, log := OnInJob(text, s, newline, x, step);
    } else {
      var a, b := ArrivesAt(text, s, newline, x.world, step);
      m, z, log := OnFineJob(text, s, newline, x, step, a, b);
    }
    RunsNext(text, s, newline, x.world, rounds, m, z.world);
    RoundsOver(s, newline, rounds, m, log);
    n, y := RunsThrough(text, m, newline, z, rounds - 1);
    AddsTwice(text, s, m, n, x, z, y, log, Rounds(m, newline, rounds - 1).log);
  }

  lemma {:induction false} OnFineJob(text: seq<Line>, s: State, newline: nat, x: Trail, step: Step, a: Job, b: Job)
    returns (n: State, y: Trail, log: seq<Change>)
    requires Whole(text, s, newline, x) && Arrives(text, s, newline, x.world, step, a, b)
    requires forall t: Trouble :: !MeetsFrom(text, x.world.cut, t)
    ensures RoundOf(s, newline) == Done(n, log) && Advances(text, s, newline, n, y.world)
    ensures Whole(text, n, newline, y) && Adds(text, s, n, x, y, log)
    ensures forall t: Trouble :: !MeetsFrom(text, y.world.cut, t)
  {
    hide *;
    ArrivesForm(text, s, newline, x.world, step, a, b);
    FirstOfJobForm(text, a, Origin(x.world, step));
    LaidOutForm(text, a);
    forall t: Trouble
      ensures !Meets(text, a, Origin(x.world, step), t) && !MeetsFrom(text, a.end, t)
    {
      MeetsSplits(text, s, newline, x.world, step, a, b, t);
    }
    FineIf(text, a, Origin(x.world, step));
    n, y, log := OnNewJob(text, s, newline, x, step, a, b);
  }

  // ---------------------------------------------------------------- runs that end in an error

  /** When the search finds nothing more, no pytest step of the first text is behind the jobs dealt with. */
  lemma {:induction false} NothingAhead(text: seq<Line>, lines: seq<Line>, search: nat, w: World, d: nat)
    requires Layout(text, lines, search, w) && FirstStep(lines, search).None? && PytestStep(text, d)
    ensures d < w.cut
  {
    hide *;
    LayoutForm(text, lines, search, w);
    if w.cut <= d {
      PytestStepForm(text, d);
      StepShifts(text, w.cut, lines, w.at, d);
      var s := StepAt(text, d).value;
      StepByForm(s, w.at - w.cut);
      var t := StepBy(s, w.at - w.cut);
      StepBlockForm(lines, t);
      BlockLines(t);
      NotCold(Shapes(t.lines));
      HeadIsExposed(Shapes(lines), search, t.Block());
      FirstStepIs(lines, search);
    }
  }

  lemma {:induction false} NoTroubleAhead(text: seq<Line>, s: State, newline: nat, w: World, t: Trouble)
    requires Inv(text, s, newline, w) && FirstStep(s.lines, s.search).None?
    ensures !MeetsFrom(text, w.cut, t)
  {
    hide *;
    InvForm(text, s, newline, w);
    if MeetsFrom(text, w.cut, t) {
      var a, d := TroubleAt(text, w.cut, t);
      MeetsIsFirst(text, a, d, t);
      FirstOfJobForm(text, a, d);
      NothingAhead(text, s.lines, s.search, w, d);
    }
  }

  lemma {:induction false} NothingBehindSwallowed(text: seq<Line>, a: Job, d: nat, t: Trouble)
    requires SwallowsLast(text) && Meets(text, a, d, Swallowing)
    ensures forall e: nat | PytestStep(text, e) :: e < a.end
    ensures !MeetsFrom(text, a.end, t)
  {
    hide Meets, PytestStep;
    if MeetsFrom(text, a.end, t) {
      var c, e := TroubleAt(text, a.end, t);
      MeetsIsFirst(text, c, e, t);
      FirstOfJobForm(text, c, e);
    }
  }

  /** A run that meets another axis, or a job that is swallowed and the last one, ends with the error of the first of
      them. */
  lemma {:induction false} RunsInto(text: seq<Line>, s: State, newline: nat, w: World, rounds: nat)
    requires Runs(text, s, newline, w, rounds) && !MeetsFrom(text, w.cut, Misplacing) && SwallowsLast(text)
    requires MeetsFrom(text, w.cut, OtherAxis) || MeetsFrom(text, w.cut, Swallowing)
    ensures Rounds(s, newline, rounds).outcome
            == Failed(if MeetsFrom(text, w.cut, OtherAxis) then MatrixConflict else AnchorNotFound)
    decreases rounds
  {
    hide *;
    RunsForm(text, s, newline, w, rounds);
    if FirstStep(s.lines, s.search).None? {
      NoTroubleAhead(text, s, newline, w, OtherAxis);
      NoTroubleAhead(text, s, newline, w, Swallowing);
    } else {
      var step := FirstStep(s.lines, s.search).value;
      if step.start < w.at {
        var n, v := RoundInJob(text, s, newline, w, step);
        RegrownForm(w, step, v);
        RunsNext(text, s, newline, w, rounds, n, v);
        RoundsOver(s, newline, rounds, n, [StepRewritten(s.lines, step)]);
        RunsInto(text, n, newline, v, rounds - 1);
      } else {
        var a, b := ArrivesAt(text, s, newline, w, step);
        RunsIntoJob(text, s, newline, w, rounds, step, a, b);
      }
    }
  }

  lemma {:induction false} RunsIntoJob(text: seq<Line>, s: State, newline: nat, w: World, rounds: nat, step: Step,
                                       a: Job, b: Job)
    requires Runs(text, s, newline, w, rounds) && !MeetsFrom(text, w.cut, Misplacing) && SwallowsLast(text)
    requires MeetsFrom(text, w.cut, OtherAxis) || MeetsFrom(text, w.cut, Swallowing)
    requires Arrives(text, s, newline, w, step, a, b)
    ensures Rounds(s, newline, rounds).outcome
            == Failed(if MeetsFrom(text, w.cut, OtherAxis) then MatrixConflict else AnchorNotFound)
    decreases rounds, 0
  {
    hide *;
    ArrivesForm(text, s, newline, w, step, a, b);
    var d := Origin(w, step);
    FirstOfJobForm(text, a, d);
    LaidOutForm(text, a);
    MeetsForm(text, a, d, OtherAxis);
    MeetsSplits(text, s, newline, w, step, a, b, OtherAxis);
    MeetsSplits(text, s, newline, w, step, a, b, Swallowing);
    MeetsSplits(text, s, newline, w, step, a, b, Misplacing);
    RoundsOut(s, newline, rounds);
    if Meets(text, a, d, OtherAxis) {
      RoundConflict(text, s, newline, w, step, a, b);
    } else if Meets(text, a, d, Swallowing) {
      NothingBehindSwallowed(text, a, d, OtherAxis);
      RoundSwallowed(text, s, newline, w, step, a, b);
    } else {
      var n, v, log := FineRound(text, s, newline, w, step, a, b);
      RunsNext(text, s, newline, w, rounds, n, v);
      RoundsOver(s, newline, rounds, n, log);
      RunsInto(text, n, newline, v, rounds - 1);
    }
  }

  lemma {:induction false} FineRound(text: seq<Line>, s: State, newline: nat, w: World, step: Step, a: Job, b: Job)
    returns (n: State, v: World, log: seq<Change>)
    requires Arrives(text, s, newline, w, step, a, b)
    requires var d := Origin(w, step);
             !Meets(text, a, d, OtherAxis) && !Meets(text, a, d, Misplacing) && !Meets(text, a, d, Swallowing)
    ensures RoundOf(s, newline) == Done(n, log) && Advances(text, s, newline, n, v) && v.cut == a.end && AllInPlace(log)
  {
    hide *;
    ArrivesForm(text, s, newline, w, step, a, b);
    FirstOfJobForm(text, a, Origin(w, step));
    LaidOutForm(text, a);
    FineIf(text, a, Origin(w, step));
    var u, k, s1, p, m, t;
    n, v, u, k, s1, p, m, t := RoundFine(text, s, newline, w, step, a, b);
    log := [AxisEnsured(s.lines, b.Bounds()), SupportEnsured(u, k.Bounds(), s1), StepRewritten(p, t)];
  }

  /** A run that patches a text with a misplacing job misplaces support steps. */
  lemma {:induction false} RunsAstray(text: seq<Line>, s: State, newline: nat, w: World, rounds: nat)
    requires Runs(text, s, newline, w, rounds) && MeetsFrom(text, w.cut, Misplacing)
    requires !MeetsFrom(text, w.cut, OtherAxis) && !MeetsFrom(text, w.cut, Swallowing)
    ensures var r := Rounds(s, newline, rounds); r.outcome.Patched? ==> !AllInPlace(r.log)
    decreases rounds
  {
    hide *;
    RunsForm(text, s, newline, w, rounds);
    if FirstStep(s.lines, s.search).None? {
      NoTroubleAhead(text, s, newline, w, Misplacing);
    } else {
      var step := FirstStep(s.lines, s.search).value;
      if step.start < w.at {
        var n, v := RoundInJob(text, s, newline, w, step);
        RegrownForm(w, step, v);
        RunsNext(text, s, newline, w, rounds, n, v);
        RoundsOver(s, newline, rounds, n, [StepRewritten(s.lines, step)]);
        RunsAstray(text, n, newline, v, rounds - 1);
      } else {
        var a, b := ArrivesAt(text, s, newline, w, step);
        RunsAstrayInJob(text, s, newline, w, rounds, step, a, b);
      }
    }
  }

  lemma {:induction false} RunsAstrayInJob(text: seq<Line>, s: State, newline: nat, w: World, rounds: nat, step: Step,
                                           a: Job, b: Job)
    requires Runs(text, s, newline, w, rounds) && MeetsFrom(text, w.cut, Misplacing)
    requires !MeetsFrom(text, w.cut, OtherAxis) && !MeetsFrom(text, w.cut, Swallowing)
    requires Arrives(text, s, newline, w, step, a, b)
    ensures var r := Rounds(s, newline, rounds); r.outcome.Patched? ==> !AllInPlace(r.log)
    decreases rounds, 0
  {
    hide *;
    ArrivesForm(text, s, newline, w, step, a, b);
    var d := Origin(w, step);
    FirstOfJobForm(text, a, d);
    LaidOutForm(text, a);
    MeetsForm(text, a, d, OtherAxis);
    MeetsSplits(text, s, newline, w, step, a, b, OtherAxis);
    MeetsSplits(text, s, newline, w, step, a, b, Swallowing);
    MeetsSplits(text, s, newline, w, step, a, b, Misplacing);
    if Meets(text, a, d, Misplacing) {
      RoundStale(text, s, newline, w, step, a, b);
      RoundsNext(s, newline, rounds);
      RoundFinds(s, newline);
      OutcomeKinds(s, newline, rounds);
    } else {
      var n, v, log := FineRound(text, s, newline, w, step, a, b);
      RunsNext(text, s, newline, w, rounds, n, v);
      RoundsOver(s, newline, rounds, n, log);
      RunsAstray(text, n, newline, v, rounds - 1);
    }
  }

  lemma {:induction false} OutcomeKinds(s: State, newline: nat, rounds: nat)
    ensures var r := RoundOf(s, newline); r.Idle? || r.Broken? || r.Done?
  {
    hide RoundOf;
  }
}
