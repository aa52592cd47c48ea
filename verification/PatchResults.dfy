/** What patching a laid-out workflow gives: exactly when it succeeds, what becomes of its jobs and of its steps, and
    when the result still runs pytest. */
module PatchResults {
  import opened PyStrings
  import opened StepBlocks
  import opened WorkflowLines
  import opened StepRewriter
  import opened RewrittenSteps
  import opened JobMatrix
  import opened TextPatcher
  import opened WorkflowPatcher
  import opened PlainRuns
  import opened JobLayouts
  import opened JobHeaders
  import opened JobPreparation
  import opened LaidOutJobs
  import opened LaidOutRuns
  import opened LineFrames
  import opened LineOrigins
  import opened SupportNames
  import opened StepLists
  import opened StandingSteps
  import opened PatchedWorkflows

  import AxisTexts

  // ---------------------------------------------------------------- where every run starts

  const NOWHERE := World(0, 0, [])

  function Itself(n: nat): (src: seq<int>)
    ensures |src| == n && forall k | 0 <= k < n :: src[k] == k
  {
    seq(n, k => k)
  }

  lemma {:induction false} FramedItself(text: seq<Line>)
    ensures Framed(text, text, Itself(|text|))
  {
    hide Suffixed, Named, InSomePytestStep, Goes, Written;
    var src := Itself(|text|);
    forall m: nat | m < |text|
      ensures m in src
    {
      assert src[m] == m;
    }
  }

  lemma {:induction false} AheadItself(text: seq<Line>)
    ensures Ahead(text, text, Itself(|text|), 0)
  {
    hide Named, Covers, Hot, UnderRun;
    var src := Itself(|text|);
    forall d: nat, k: nat | UnderRun(Shapes(text), d, k)
      ensures d <= k < |text|
    {
      UnderRunBounds(Shapes(text), d, k);
    }
    forall d: nat, k: nat | Covers(Shapes(text), d, k)
      ensures d <= k < |text|
    {
      CoverBounds(Shapes(text), d, k);
    }
    forall r: nat | Hot(Shapes(text), r)
      ensures r < |text|
    {
      HotIsRun(Shapes(text), r);
    }
    assert forall k | 0 <= k < |text| :: src[k] == k;
  }

  lemma {:induction false} MappedItself(text: seq<Line>)
    ensures Mapped(text, text, 0, NOWHERE, Itself(|text|))
  {
    hide Framed, Ahead;
    FramedItself(text);
    AheadItself(text);
  }

  lemma {:induction false} InvAtStart(text: seq<Line>, newline: nat)
    requires AllRead(text)
    ensures Inv(text, StartOf(text), newline, NOWHERE)
  {
    hide AllRead, PytestStep, Placed;
    assert Layout(text, text, 0, NOWHERE);
  }

  lemma {:induction false} WholeAtStart(text: seq<Line>, newline: nat)
    requires AllRead(text) && 0 < newline
    ensures Whole(text, StartOf(text), newline, Trail(NOWHERE, Itself(|text|), []))
  {
    hide Inv, Mapped, StandsAt, Held, SupportNamed, INSTALL_STEP_NAME, SELECT_STEP_NAME;
    MappedItself(text);
    InvAtStart(text, newline);
  }

  lemma {:induction false} RunStarts(text: seq<Line>, newline: nat, rounds: nat)
    ensures FirstStep(text, 0).None? ==> Run(text, newline, rounds) == Result(Failed(AnchorNotFound), [])
    ensures FirstStep(text, 0).Some? ==> Run(text, newline, rounds) == Rounds(StartOf(text), newline, rounds)
  {
    hide FirstStep, Rounds;
  }

  lemma {:induction false} FirstIsThere(text: seq<Line>)
    ensures FirstStep(text, 0).Some? <==> HasPytestStep(Shapes(text))
  {
    hide FirstStep, ExposedFrom;
    FirstStepIs(text, 0);
  }

  /** A workflow whose pytest steps stand in laid-out jobs, read from a file, and enough rounds for it. */
  ghost predicate LaidOutInput(text: seq<Line>, newline: nat, rounds: nat) {
    AllRead(text) && LaidOut(text) && 0 < newline && HotsFrom(Shapes(text), 0) <= rounds
  }

  lemma {:induction false} RunsAtStart(text: seq<Line>, newline: nat, rounds: nat)
    requires LaidOutInput(text, newline, rounds)
    ensures Runs(text, StartOf(text), newline, NOWHERE, rounds)
  {
    hide AllRead, LaidOut, Inv, HotsFrom;
    InvAtStart(text, newline);
  }

  // ---------------------------------------------------------------- when it succeeds

  /** Exactly when a laid-out workflow, none of whose jobs misplaces support steps, is patched, and with which error it
      is refused otherwise. */
  lemma {:induction false} RunEnds(text: seq<Line>, newline: nat, rounds: nat)
    requires LaidOutInput(text, newline, rounds) && !MeetsFrom(text, 0, Misplacing) && SwallowsLast(text)
    ensures var o, any := Run(text, newline, rounds).outcome, HasPytestStep(Shapes(text));
            && (o.Patched? <==> any && !MeetsFrom(text, 0, OtherAxis) && !MeetsFrom(text, 0, Swallowing))
            && (o == Failed(MatrixConflict) <==> MeetsFrom(text, 0, OtherAxis))
            && (o == Failed(AnchorNotFound) <==>
                 !any
                 || (!MeetsFrom(text, 0, OtherAxis) && MeetsFrom(text, 0, Swallowing)))
  {
    hide *;
    RunStarts(text, newline, rounds);
    FirstIsThere(text);
    RunsAtStart(text, newline, rounds);
    RunsForm(text, StartOf(text), newline, NOWHERE, rounds);
    StartForm(text);
    if FirstStep(text, 0).None? {
      NoTroubleAhead(text, StartOf(text), newline, NOWHERE, OtherAxis);
      NoTroubleAhead(text, StartOf(text), newline, NOWHERE, Swallowing);
    } else if MeetsFrom(text, 0, OtherAxis) || MeetsFrom(text, 0, Swallowing) {
      RunsInto(text, StartOf(text), newline, NOWHERE, rounds);
    } else {
      NoTrouble(text);
      var n, x := RunsToEnd(text, newline, rounds);
    }
  }

  /** A job whose axis is written as a list has another axis exactly if its items are not stub and redis. */
  lemma {:induction false} OtherListedAxis(text: seq<Line>, a: Job, d: nat, s: nat, m: nat, k: nat, e: nat,
                                           items: seq<AxisTexts.Item>, places: seq<nat>)
    requires FirstOfJob(text, a, d) && InText(text, a.Bounds())
    requires AxisTexts.AxisAt(text, a.start, a.end, s, m, k) && text[k].text == "mode:"
    requires AxisTexts.Lists(text, k + 1, e, text[k].Indent(), items, places)
    ensures Meets(text, a, d, OtherAxis) <==> AxisTexts.Words(items) != ["stub", "redis"]
  {
    hide *;
    BoundsForm(text, a);
    MeetsForm(text, a, d, OtherAxis);
    AxisTexts.ListedAxis(text, a.start, a.end, s, m, k, e, items, places);
  }

  /** The same for an axis on the line of its key. */
  lemma {:induction false} OtherInlineAxis(text: seq<Line>, a: Job, d: nat, s: nat, m: nat, k: nat, pre: string,
                                           bracketed: bool, items: seq<AxisTexts.Item>, post: string)
    requires FirstOfJob(text, a, d) && InText(text, a.Bounds())
    requires AxisTexts.AxisAt(text, a.start, a.end, s, m, k) && items != [] && AxisTexts.AllValid(items)
    requires AxisTexts.Blanks(pre) && AxisTexts.Blanks(post)
    requires text[k].text == AxisTexts.InlineText(pre, bracketed, items, post)
    ensures Meets(text, a, d, OtherAxis) <==> AxisTexts.Words(items) != ["stub", "redis"]
  {
    hide *;
    BoundsForm(text, a);
    MeetsForm(text, a, d, OtherAxis);
    AxisTexts.InlineAxis(text, a.start, a.end, s, m, k, pre, bracketed, items, post);
  }

  /** A job without a strategy has no other axis. */
  lemma {:induction false} NoStrategyNoAxis(text: seq<Line>, a: Job, d: nat, j: nat)
    requires FirstOfJob(text, a, d) && InText(text, a.Bounds()) && a.start < j <= a.end
    requires forall k | a.start < k < a.end :: AxisTexts.Passed(text[k], text[a.start].Indent(), {StrategyKey})
    requires forall k | a.start < k < j :: !text[k].shape.kind.StepsKey?
    requires j < a.end ==> text[j].shape.kind.StepsKey?
    ensures !Meets(text, a, d, OtherAxis)
  {
    hide *;
    BoundsForm(text, a);
    MeetsForm(text, a, d, OtherAxis);
    AxisTexts.StrategyIsAdded(text, a.start, a.end, j);
  }

  lemma {:induction false} BoundsForm(text: seq<Line>, a: Job)
    requires InText(text, a.Bounds())
    ensures a.start < a.end <= |text|
  {
  }

  lemma {:induction false} StartForm(text: seq<Line>)
    ensures StartOf(text).lines == text && StartOf(text).search == 0 && NOWHERE.cut == 0 && NOWHERE.at == 0
    ensures NOWHERE.places == []
  {
  }

  lemma {:induction false} NoTrouble(text: seq<Line>)
    requires !MeetsFrom(text, 0, OtherAxis) && !MeetsFrom(text, 0, Misplacing) && !MeetsFrom(text, 0, Swallowing)
    ensures Untroubled(text)
  {
    hide MeetsFrom;
    forall t: Trouble
      ensures !MeetsFrom(text, 0, t)
    {
      match t
      case OtherAxis =>
      case Misplacing =>
      case Swallowing =>
    }
  }

  ghost predicate Untroubled(text: seq<Line>) { forall t: Trouble :: !MeetsFrom(text, 0, t) }

  lemma {:induction false} UntroubledForm(text: seq<Line>)
    requires Untroubled(text)
    ensures forall t: Trouble :: !MeetsFrom(text, 0, t)
  {
    hide MeetsFrom;
  }

  lemma {:induction false} InputForm(text: seq<Line>, newline: nat, rounds: nat)
    requires LaidOutInput(text, newline, rounds)
    ensures AllRead(text) && LaidOut(text) && 0 < newline && HotsFrom(Shapes(text), 0) <= rounds
  {
    hide AllRead, LaidOut, HotsFrom;
  }

  lemma {:induction false} RunsToEnd(text: seq<Line>, newline: nat, rounds: nat) returns (n: State, y: Trail)
    requires LaidOutInput(text, newline, rounds) && Untroubled(text) && FirstStep(text, 0).Some?
    ensures var r, s := Run(text, newline, rounds), StartOf(text);
            r.outcome == Patched(n.lines) && Adds(text, s, n, Trail(NOWHERE, Itself(|text|), []), y, r.log)
    ensures Whole(text, n, newline, y) && FirstStep(n.lines, n.search).None?
  {
    hide *;
    InputForm(text, newline, rounds);
    UntroubledForm(text);
    RunStarts(text, newline, rounds);
    RunsAtStart(text, newline, rounds);
    WholeAtStart(text, newline);
    StartForm(text);
    n, y := RunsThrough(text, StartOf(text), newline, Trail(NOWHERE, Itself(|text|), []), rounds);
  }

  /** A laid-out workflow that is patched has support steps misplaced exactly if one of its jobs misplaces them. */
  lemma {:induction false} MisplacesExactly(text: seq<Line>, newline: nat, rounds: nat)
    requires LaidOutInput(text, newline, rounds) && !MeetsFrom(text, 0, OtherAxis) && !MeetsFrom(text, 0, Swallowing)
    ensures var r := Run(text, newline, rounds);
            r.outcome.Patched? ==> (AllInPlace(r.log) <==> !MeetsFrom(text, 0, Misplacing))
  {
    hide *;
    RunStarts(text, newline, rounds);
    RunsAtStart(text, newline, rounds);
    StartForm(text);
    if FirstStep(text, 0).Some? {
      if MeetsFrom(text, 0, Misplacing) {
        RunsAstray(text, StartOf(text), newline, NOWHERE, rounds);
      } else {
        NoTrouble(text);
        var n, y := RunsToEnd(text, newline, rounds);
        AddsForm(text, StartOf(text), n, Trail(NOWHERE, Itself(|text|), []), y, Run(text, newline, rounds).log);
      }
    }
  }

  lemma {:induction false} AddsForm(text: seq<Line>, s: State, n: State, x: Trail, y: Trail, log: seq<Change>)
    requires Adds(text, s, n, x, y, log)
    ensures StartsOf(y.world.places) == StartsOf(x.world.places) + AxisStarts(log)
    ensures StartsOf(y.world.places) == StartsOf(x.world.places) + SupportStarts(log)
    ensures WasOf(y.stands) == WasOf(x.stands) + Rewrote(log)
    ensures StillAhead(text, s, x) == Rewrote(log) + StillAhead(text, n, y)
    ensures NoneStaysHot(log) <==> NoneLingers(Rewrote(log))
    ensures AllInPlace(log)
  {
    hide StillAhead, StartsOf, WasOf, NoneStaysHot, NoneLingers, AllInPlace, Rewrote, AxisStarts;
    hide SupportStarts;
  }

  // ---------------------------------------------------------------- the jobs of the patched text

  /** The job is still there, from the same line, with the wanted axis and with both support steps. */
  ghost predicate JobPatched(text: seq<Line>, lines: seq<Line>, src: seq<int>, p: Place) {
    && LaidOutJob(text, p.origin) && IsJob(lines, p.now)
    && p.now.start < |src| && src[p.now.start] == p.origin.start
    && MatrixEdit(lines, p.now.start, p.now.end) == Existing
    && (SupportNamed(text) ==> forall n: nat :: Lacking(lines, p.now.Bounds(), n) == [])
  }

  ghost predicate InOrder(places: seq<Place>) { forall i, k | 0 <= i < k < |places| ::
                          places[i].now.end <= places[k].now.start }

  ghost predicate HoldsAll(text: seq<Line>, places: seq<Place>) {
    forall d: nat | PytestStep(text, d) :: exists i :: 0 <= i < |places| && places[i].origin.Holds(d)
  }

  lemma {:induction false} PlacesInOrder(text: seq<Line>, lines: seq<Line>, places: seq<Place>)
    requires Settled(text, lines, places)
    ensures InOrder(places) && forall i | 0 <= i < |places| :: Placed(text, lines, places[i])
  {
    hide Placed;
  }

  lemma {:induction false} AllAreHeld(text: seq<Line>, s: State, newline: nat, w: World)
    requires Inv(text, s, newline, w) && FirstStep(s.lines, s.search).None?
    ensures HoldsAll(text, w.places)
  {
    InvForm(text, s, newline, w);
    hide Inv, Layout, Settled, Keyed, FirstStep, PytestStep;
    forall d: nat | PytestStep(text, d)
      ensures exists i :: 0 <= i < |w.places| && w.places[i].origin.Holds(d)
    {
      NothingAhead(text, s.lines, s.search, w, d);
    }
  }

  lemma {:induction false} NamedLacksNothing(lines: seq<Line>, job: Bounds, n: nat)
    requires INSTALL_STEP_NAME in NamesOfSteps(lines, job.0, job.1)
    requires SELECT_STEP_NAME in NamesOfSteps(lines, job.0, job.1)
    ensures Lacking(lines, job, n) == []
  {
    hide NamesOfSteps, INSTALL_STEP_NAME, SELECT_STEP_NAME;
  }

  lemma {:induction false} NamesAreNotEmpty()
    ensures INSTALL_STEP_NAME != "" && SELECT_STEP_NAME != ""
  {
  }

  lemma {:induction false} SupportedLacksNothing(text: seq<Line>, lines: seq<Line>, search: nat, places: seq<Place>,
                                                 p: Place, n: nat)
    requires Supported(text, lines, search, places) && p in places && SupportNamed(text)
    ensures Lacking(lines, p.now.Bounds(), n) == []
  {
    hide SupportNamed, Held, Lacking, INSTALL_STEP_NAME, SELECT_STEP_NAME;
    NamesAreNotEmpty();
    HeldIsNamed(lines, p.now.start, p.now.end, search, INSTALL_STEP_NAME);
    HeldIsNamed(lines, p.now.start, p.now.end, search, SELECT_STEP_NAME);
    NamedLacksNothing(lines, p.now.Bounds(), n);
  }

  lemma {:induction false} StartOfPlace(src: seq<int>, places: seq<Place>, p: Place)
    requires StartsMapped(src, places) && p in places
    ensures p.now.start < |src| && src[p.now.start] == p.origin.start
  {
  }

  lemma {:induction false} PlaceIsPatched(text: seq<Line>, s: State, newline: nat, y: Trail, p: Place)
    requires Whole(text, s, newline, y) && p in y.world.places && Placed(text, s.lines, p)
    ensures JobPatched(text, s.lines, y.src, p)
  {
    hide *;
    WholeForm(text, s, newline, y);
    MappedForm(text, s.lines, s.search, y.world, y.src);
    StartOfPlace(y.src, y.world.places, p);
    PlacedForm(text, s.lines, p);
    JobForm(s.lines, p.now);
    SetIsExisting(s.lines, p.now);
    forall n: nat | SupportNamed(text)
      ensures Lacking(s.lines, p.now.Bounds(), n) == []
    {
      SupportedLacksNothing(text, s.lines, s.search, y.world.places, p, n);
    }
    JobPatchedIf(text, s.lines, y.src, p);
  }

  lemma {:induction false} JobPatchedIf(text: seq<Line>, lines: seq<Line>, src: seq<int>, p: Place)
    requires LaidOutJob(text, p.origin) && IsJob(lines, p.now) && InText(lines, p.now.Bounds())
    requires p.now.Bounds() == (p.now.start, p.now.end)
    requires p.now.start < |src| && src[p.now.start] == p.origin.start
    requires MatrixEdit(lines, p.now.start, p.now.end) == Existing
    requires SupportNamed(text) ==> forall n: nat :: Lacking(lines, p.now.Bounds(), n) == []
    ensures JobPatched(text, lines, src, p)
  {
    hide LaidOutJob, IsJob, MatrixEdit, SupportNamed, Lacking;
  }

  /** Patching keeps the lines of the text in order.  It drops only run texts of steps that run pytest and install
      scripts that are replaced, changes only name lines of steps that run pytest, and writes only lines of its own, in
      the jobs that hold such steps.  Each of these jobs is still there, with its axis and its support steps, and was
      given each of them once. */
  lemma {:induction false} JobsArePatched(text: seq<Line>, newline: nat, rounds: nat)
    returns (lines: seq<Line>, src: seq<int>, places: seq<Place>)
    requires LaidOutInput(text, newline, rounds) && Untroubled(text) && HasPytestStep(Shapes(text))
    ensures Run(text, newline, rounds).outcome == Patched(lines)
    ensures Framed(text, lines, src) && Kept(text, lines, src, |text|) && WrittenInside(src, places)
    ensures (forall i | 0 <= i < |places| :: JobPatched(text, lines, src, places[i])) && InOrder(places)
    ensures HoldsAll(text, places)
    ensures AxisStarts(Run(text, newline, rounds).log) == SupportStarts(Run(text, newline, rounds).log)
            == StartsOf(places)
  {
    hide *;
    FirstIsThere(text);
    var n, y := RunsToEnd(text, newline, rounds);
    lines, src, places := n.lines, y.src, y.world.places;
    WholeForm(text, n, newline, y);
    InvForm(text, n, newline, y.world);
    MappedForm(text, lines, n.search, y.world, src);
    TracedForm(text, lines, src, n.search);
    FramedIsKept(text, lines, src);
    PlacesInOrder(text, lines, places);
    AllAreHeld(text, n, newline, y.world);
    forall i | 0 <= i < |places|
      ensures JobPatched(text, lines, src, places[i])
    {
      PlaceIsPatched(text, n, newline, y, places[i]);
    }
    var log := Run(text, newline, rounds).log;
    AddsForm(text, StartOf(text), n, Trail(NOWHERE, Itself(|text|), []), y, log);
    NothingStarted();
    NothingStartedBefore(AxisStarts(log));
    NothingStartedBefore(SupportStarts(log));
  }

  /** Line `m` belongs to the step opened at line `d`, which runs no pytest and which no block before it reaches. */
  ghost predicate InQuietStep(text: seq<Line>, d: nat, m: nat) {
    && StepAt(text, d).Some? && Cold(Shapes(StepAt(text, d).value.lines)) && Aligned(Shapes(text), d)
    && d <= m < StepAt(text, d).value.end
  }

  lemma {:induction false} InQuietStepForm(text: seq<Line>, d: nat, m: nat)
    requires InQuietStep(text, d, m)
    ensures StepAt(text, d).Some? && Cold(Shapes(StepAt(text, d).value.lines)) && Aligned(Shapes(text), d)
    ensures d <= m < StepAt(text, d).value.end
  {
    hide StepAt, Cold, Aligned;
  }

  /** The lines outside the steps that run pytest stay as they are and in order, apart from install scripts that are
      replaced; so do all lines of a step that runs none. */
  lemma {:induction false} OtherStepsStay(text: seq<Line>, newline: nat, rounds: nat)
    returns (lines: seq<Line>, src: seq<int>)
    requires LaidOutInput(text, newline, rounds) && Untroubled(text) && HasPytestStep(Shapes(text))
    ensures Run(text, newline, rounds).outcome == Patched(lines) && |src| == |lines|
    ensures forall m: nat | m < |text| && !InSomePytestStep(text, m) && !RefreshGoes(text, m) ::
              Stays(text, lines, src, m)
    ensures forall d: nat, m: nat | InQuietStep(text, d, m) && !RefreshGoes(text, m) ::
              m < |text| && Stays(text, lines, src, m)
    ensures forall j, k | 0 <= j < k < |src| && 0 <= src[j] && 0 <= src[k] :: src[j] < src[k]
  {
    hide *;
    var places;
    lines, src, places := JobsArePatched(text, newline, rounds);
    FramedForm(text, lines, src);
    forall m: nat | m < |text| && !InSomePytestStep(text, m) && !RefreshGoes(text, m)
      ensures Stays(text, lines, src, m)
    {
      OtherLineStays(text, lines, src, m);
    }
    forall d: nat, m: nat | InQuietStep(text, d, m) && !RefreshGoes(text, m)
      ensures m < |text| && Stays(text, lines, src, m)
    {
      InQuietStepForm(text, d, m);
      StepHere(text, d);
      QuietStepApart(text, StepAt(text, d).value, m);
      OtherLineStays(text, lines, src, m);
    }
  }

  lemma {:induction false} NothingStarted()
    ensures StartsOf(NOWHERE.places) == [] && WasOf([]) == []
  {
  }

  lemma {:induction false} NothingStartedBefore(s: seq<nat>)
    ensures [] + s == s
  {
  }

  // ---------------------------------------------------------------- the steps of the patched text

  /** What was written for a step: the flag is set, and the runner is called if it had a run key; it is one step of the
      same depth exactly if the step had a name. */
  ghost predicate StepPatched(lines: seq<Line>, s: Stand) {
    var ls := NewLines(s.was);
    && s.at + |ls| <= |lines| && lines[s.at..s.at + |ls|] == ls && EnvFlagged(ls)
    && (HasRun(s.was) ==> HasLine(ls, RUNNER_COMMAND)) && (!Lingers(s.was) ==> HasRun(s.was))
    && (HasName(s.was) <==> StepAt(lines, s.at) == Some(Step(s.at, s.at + |ls|, DepthOf(s.was), ls)))
  }

  lemma {:induction false} StandIsPatched(lines: seq<Line>, search: nat, s: Stand)
    requires StandsAt(lines, search, s)
    ensures StepPatched(lines, s)
  {
    hide *;
    StandForm(lines, search, s);
    StandIsStep(lines, search, s);
    RewrittenRunsRunner(s.was, DepthOf(s.was));
    LingersForm(s.was);
    StepPatchedIf(lines, s);
  }

  lemma {:induction false} LingersForm(b: seq<Line>)
    ensures Lingers(b) == StaysHot(b, DepthOf(b))
  {
    hide StaysHot, DepthOf;
  }

  lemma {:induction false} StepPatchedIf(lines: seq<Line>, s: Stand)
    requires var ls := NewLines(s.was);
             && s.at + |ls| <= |lines| && lines[s.at..s.at + |ls|] == ls && EnvFlagged(ls)
             && (HasRun(s.was) ==> HasLine(ls, RUNNER_COMMAND)) && (!Lingers(s.was) ==> HasRun(s.was))
             && (HasName(s.was) <==> StepAt(lines, s.at) == Some(Step(s.at, s.at + |ls|, DepthOf(s.was), ls)))
    ensures StepPatched(lines, s)
  {
    hide EnvFlagged, HasRun, HasLine, Lingers, HasName, StepAt, NewLines, DepthOf;
  }

  lemma {:induction false} AllStandForm(lines: seq<Line>, search: nat, stands: seq<Stand>, i: nat)
    requires AllStand(lines, search, stands) && i < |stands|
    ensures StandsAt(lines, search, stands[i])
    ensures forall j, k | 0 <= j < k < |stands| :: stands[j].at < stands[k].at
  {
    hide StandsAt;
  }

  ghost predicate StandInOrder(stands: seq<Stand>) { forall j, k | 0 <= j < k < |stands| ::
                               stands[j].at < stands[k].at }

  lemma {:induction false} StandsInOrder(lines: seq<Line>, search: nat, stands: seq<Stand>)
    requires AllStand(lines, search, stands)
    ensures StandInOrder(stands)
  {
    hide StandsAt;
  }

  /** A step that lingers leaves a pytest step. */
  lemma {:induction false} LingeringIsSeen(lines: seq<Line>, search: nat, stands: seq<Stand>, steps: seq<seq<Line>>)
    requires AllStand(lines, search, stands) && WasOf(stands) == steps && !NoneLingers(steps)
    ensures HasPytestStep(Shapes(lines))
  {
    hide *;
    var i := LingeringAt(stands, steps);
    AllStandForm(lines, search, stands, i);
    LingersForm(stands[i].was);
    StandStaysHot(lines, search, stands[i]);
  }

  lemma {:induction false} LingeringAt(stands: seq<Stand>, steps: seq<seq<Line>>) returns (i: nat)
    requires WasOf(stands) == steps && !NoneLingers(steps)
    ensures i < |stands| && Lingers(stands[i].was)
  {
    hide Lingers;
    var b :| b in steps && Lingers(b);
    i :| 0 <= i < |steps| && steps[i] == b;
    assert WasOf(stands)[i] == stands[i].was;
  }

  /** Patching rewrites exactly the steps that run pytest, with new install scripts, as far as they still run it then,
      each once and in order; without pytest in an install script that is replaced, these are just the steps that run
      pytest.  Each stands in the patched text, which is left without a pytest step exactly if none of them lingers. */
  lemma {:induction false} StepsArePatched(text: seq<Line>, newline: nat, rounds: nat)
    returns (lines: seq<Line>, stands: seq<Stand>)
    requires LaidOutInput(text, newline, rounds) && Untroubled(text) && HasPytestStep(Shapes(text))
    ensures Run(text, newline, rounds).outcome == Patched(lines)
    ensures Rewrote(Run(text, newline, rounds).log) == WasOf(stands) == Rewritable(text)
    ensures InstallsQuiet(text) ==> Rewritable(text) == PytestSteps(text, 0)
    ensures (forall i | 0 <= i < |stands| :: StepPatched(lines, stands[i])) && StandInOrder(stands)
    ensures HasPytestStep(Shapes(lines)) <==> !NoneLingers(Rewritable(text))
    ensures NoneLingers(Rewritable(text)) ==> HasLine(lines, RUNNER_COMMAND)
  {
    hide *;
    FirstIsThere(text);
    InputForm(text, newline, rounds);
    var n, y := RunsToEnd(text, newline, rounds);
    var log := Run(text, newline, rounds).log;
    lines, stands := n.lines, y.stands;
    WholeForm(text, n, newline, y);
    forall i | 0 <= i < |stands|
      ensures StepPatched(lines, stands[i])
    {
      AllStandForm(lines, n.search, stands, i);
      StandIsPatched(lines, n.search, stands[i]);
    }
    StandsInOrder(lines, n.search, stands);
    StartForm(text);
    AddsForm(text, StartOf(text), n, Trail(NOWHERE, Itself(|text|), []), y, log);
    NothingStarted();
    AheadOf(text, n, y);
    RestNone(lines, n.search, RenewsFrom(text, y.world.at, y.world.cut));
    AheadAtStart(text);
    NothingMore(Rewrote(log));
    if InstallsQuiet(text) {
      QuietRewritable(text);
    }
    if NoneLingers(Rewritable(text)) {
      CleanRun(text, newline, rounds);
    } else {
      LingeringIsSeen(lines, n.search, stands, Rewritable(text));
    }
  }

  lemma {:induction false} AheadAtStart(text: seq<Line>)
    ensures StillAhead(text, StartOf(text), Trail(NOWHERE, Itself(|text|), [])) == Rewritable(text)
  {
    hide Rest, RenewsFrom;
  }

  lemma {:induction false} NothingMore(s: seq<seq<Line>>)
    ensures s + [] == s && [] + s == s
  {
  }
}
