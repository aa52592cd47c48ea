/** Runs over a laid-out workflow: every job with a pytest step is prepared once, where it stands, before its first
    pytest step is rewritten. */
module LaidOutRuns {
  import opened PyStrings
  import opened StepBlocks
  import opened WorkflowLines
  import opened StepRewriter
  import opened RewrittenSteps
  import opened JobMatrix
  import opened TextPatcher
  import opened WorkflowPatcher
  import opened PlainRuns
  import opened JobLayouts
  import opened JobHeaders
  import opened JobPreparation
  import opened LaidOutJobs

  /** Every step that runs pytest stands in a laid-out job. */
  ghost predicate LaidOut(text: seq<Line>) {
    forall d: nat | PytestStep(text, d) :: exists j: Job :: LaidOutJob(text, j) && j.Holds(d)
  }

  /** Line `d` opens the first pytest step of the laid-out job. */
  ghost predicate FirstOfJob(text: seq<Line>, j: Job, d: nat) {
    LaidOutJob(text, j) && j.Holds(d) && PytestStep(text, d) && forall k: nat | j.steps < k < d :: !PytestStep(text, k)
  }

  // ---------------------------------------------------------------- where a run stands

  /** A job of the first text, and where it is now. */
  datatype Place = Place(origin: Job, now: Job)

  /** The jobs dealt with, and the line up to which they are: `cut` in the first text, `at` in the current one. */
  datatype World = World(cut: nat, at: nat, places: seq<Place>) {
    function Last(): Place
      requires places != []
    {
      places[|places| - 1]
    }
  }

  /** What follows the jobs dealt with is as it was, and the search has not gone further. */
  ghost predicate Layout(text: seq<Line>, lines: seq<Line>, search: nat, w: World) {
    && AllRead(text) && AllRead(lines) && SameFrom(text, w.cut, lines, w.at) && search <= w.at
    && Aligned(Shapes(lines), search) && Aligned(Shapes(text), w.cut)
    && (if w.places == [] then w.cut == 0 && w.at == 0
        else w.Last().origin.end == w.cut && w.Last().now.end == w.at && w.Last().now.steps < search)
  }

  /** The job is still there, with its first line, and its header holds the axis. */
  ghost predicate Placed(text: seq<Line>, lines: seq<Line>, p: Place) {
    && LaidOutJob(text, p.origin) && IsJob(lines, p.now) && AxisSet(lines, p.now)
    && lines[p.now.start] == text[p.origin.start]
  }

  ghost predicate Settled(text: seq<Line>, lines: seq<Line>, places: seq<Place>) {
    && (forall i | 0 <= i < |places| :: Placed(text, lines, places[i]))
    && (forall i, k | 0 <= i < k < |places| :: places[i].now.end <= places[k].now.start)
  }

  ghost predicate KnownKey(s: State, newline: nat, p: Place) {
    var x := p.now.start;
    x in s.keys && s.keys[x].0 == OffsetAt(s.lines, newline, x) && s.keys[x] in s.axisDone && s.keys[x] in s.supportDone
  }

  ghost predicate StartsAt(places: seq<Place>, x: nat) { exists p | p in places :: p.now.start == x }

  ghost predicate IsKey(keys: map<nat, Bounds>, k: Bounds) { exists x | x in keys :: keys[x] == k }

  /** The keys are those of the jobs dealt with. */
  ghost predicate Keyed(s: State, newline: nat, places: seq<Place>) {
    && (forall p | p in places :: KnownKey(s, newline, p))
    && (forall x | x in s.keys :: StartsAt(places, x))
    && (forall k | k in s.axisDone || k in s.supportDone :: IsKey(s.keys, k))
  }

  /** Every pytest step up to the cut belongs to a job dealt with. */
  ghost predicate Covered(text: seq<Line>, w: World) {
    forall d: nat | PytestStep(text, d) && d < w.cut :: exists i :: 0 <= i < |w.places| && w.places[i].origin.Holds(d)
  }

  ghost predicate Inv(text: seq<Line>, s: State, newline: nat, w: World) {
    Layout(text, s.lines, s.search, w) && Settled(text, s.lines, w.places) && Keyed(s, newline, w.places)
        && Covered(text, w)
  }

  // ---------------------------------------------------------------- rewriting a step of the last job

  ghost function Grow(w: World, n: int): World
    requires w.places != [] && 0 <= w.at + n && 0 <= w.Last().now.end + n
  {
    World(w.cut, w.at + n, w.places[|w.places| - 1 := Place(w.Last().origin, w.Last().now.Grown(0, n))])
  }

  lemma {:induction false} KeptKind(origin: Line, l: Line)
    requires WellRead(origin) && KeptLine(origin, l)
    ensures l.shape == origin.shape
  {
    hide WellRead, Suffixed;
    SuffixedKeepsShape(origin);
  }

  lemma {:induction false} KeptFits(b: seq<Line>, ls: seq<Line>, src: seq<int>, key: nat, step: nat)
    requires AllRead(b) && Kept(b, ls, src, |b|) && StepShaped(Shapes(ls), step) && key < step
    requires forall k | 0 <= k < |b| :: !OpensSteps(b[k])
    ensures JobLines(ls, key)
  {
    hide WellRead, KeptLine, InSomeRun;
    forall k | 0 <= k < |ls|
      ensures !OpensSteps(ls[k]) && (ls[k].shape.Blank() || key < ls[k].Indent())
    {
      assert Shapes(ls)[k] == ls[k].shape;
      if 0 <= src[k] {
        KeptKind(b[src[k]], ls[k]);
      }
    }
  }

  lemma {:induction false} StepOpensNothing(lines: seq<Line>, j: Job, s: Step)
    requires IsJob(lines, j) && j.Holds(s.start) && StepAt(lines, s.start) == Some(s) && s.end <= j.end
    ensures forall k | 0 <= k < |s.lines| :: !OpensSteps(s.lines[k])
  {
    hide StepEnd, JobKey;
    forall k | 0 <= k < |s.lines|
      ensures !OpensSteps(s.lines[k])
    {
      assert s.lines[k] == lines[s.start + k];
    }
  }

  /** The lines that replace a step of a job may stand in the job. */
  lemma {:induction false} RewrittenFits(lines: seq<Line>, j: Job, s: Step)
    requires AllRead(lines) && IsJob(lines, j) && j.Holds(s.start) && StepAt(lines, s.start) == Some(s)
    ensures JobLines(RewriteLines(s.lines, s.indent), lines[j.start].Indent())
  {
    hide *;
    JobForm(lines, j);
    StepIsBlock(lines, s);
    StepInJob(lines, j, s);
    RewrittenIsStep(s.lines, s.indent);
    var src := RewrittenKeepsLines(s.lines, s.indent);
    StepOpensNothing(lines, j, s);
    KeptFits(s.lines, RewriteLines(s.lines, s.indent), src, lines[j.start].Indent(), s.indent);
  }

  lemma {:induction false} JobStaysBefore(a: seq<Line>, b: seq<Line>, x: nat, text: seq<Line>, p: Place)
    requires Placed(text, a, p) && SameUpTo(a, b, x) && p.now.end < x
    ensures Placed(text, b, p)
  {
    hide LaidOutJob, IsJob, AxisSet;
    JobForm(a, p.now);
    SameUpToLess(a, b, x, p.now.end + 1);
    SameUpToLess(a, b, x, p.now.steps + 1);
    JobStays(a, b, p.now);
    AxisStays(a, b, p.now, p.now);
    assert a[p.now.start] == b[p.now.start];
  }

  lemma {:induction false} PlacesStay(a: seq<Line>, b: seq<Line>, x: nat, text: seq<Line>, places: seq<Place>)
    requires Settled(text, a, places) && SameUpTo(a, b, x) && forall i | 0 <= i < |places| :: places[i].now.end < x
    ensures Settled(text, b, places)
  {
    hide Placed, SameUpTo;
    forall i | 0 <= i < |places|
      ensures Placed(text, b, places[i])
    {
      JobStaysBefore(a, b, x, text, places[i]);
    }
  }

  lemma {:induction false} PlacesWithLast(text: seq<Line>, lines: seq<Line>, places: seq<Place>, p: Place)
    requires Settled(text, lines, places) && Placed(text, lines, p)
    requires forall i | 0 <= i < |places| :: places[i].now.end <= p.now.start
    ensures Settled(text, lines, places + [p])
  {
    hide Placed;
  }

  lemma {:induction false} PlacesBut(text: seq<Line>, lines: seq<Line>, places: seq<Place>)
    requires Settled(text, lines, places) && places != []
    ensures var p := places[|places| - 1];
            && Settled(text, lines, places[..|places| - 1]) && Placed(text, lines, p)
            && forall i | 0 <= i < |places| - 1 :: places[i].now.end <= p.now.start
  {
    hide Placed;
  }

  lemma {:induction false} LayoutForm(text: seq<Line>, lines: seq<Line>, search: nat, w: World)
    requires Layout(text, lines, search, w)
    ensures AllRead(text) && AllRead(lines) && SameFrom(text, w.cut, lines, w.at) && search <= w.at
    ensures Aligned(Shapes(lines), search) && Aligned(Shapes(text), w.cut)
    ensures w.places == [] ==> w.cut == 0 && w.at == 0
    ensures w.places != [] ==> w.Last().origin.end == w.cut && w.Last().now.end == w.at && w.Last().now.steps < search
  {
    hide AllRead, SameFrom, Aligned;
  }

  lemma {:induction false} LayoutIf(text: seq<Line>, lines: seq<Line>, search: nat, w: World)
    requires AllRead(text) && AllRead(lines) && SameFrom(text, w.cut, lines, w.at) && search <= w.at
    requires Aligned(Shapes(lines), search) && Aligned(Shapes(text), w.cut)
    requires w.places != [] && w.Last().origin.end == w.cut && w.Last().now.end == w.at && w.Last().now.steps < search
    ensures Layout(text, lines, search, w)
  {
    hide AllRead, SameFrom, Aligned;
  }

  lemma {:induction false} RewritingForm(lines: seq<Line>, s: Step)
    requires StepAt(lines, s.start) == Some(s)
    ensures s.start < s.end <= |lines|
    ensures var ls, u := RewriteLines(s.lines, s.indent), Rewriting(lines, s);
            && u == lines[..s.start] + ls + lines[s.end..] && |u| == |lines| + |ls| - (s.end - s.start)
  {
    hide RewriteLines, StepEnd;
  }

  lemma {:induction false} RewrittenAligned(lines: seq<Line>, s: Step)
    requires AllRead(lines) && StepAt(lines, s.start) == Some(s) && Aligned(Shapes(lines), s.start)
    ensures s.start < s.end <= |lines|
    ensures var ls, u := RewriteLines(s.lines, s.indent), Rewriting(lines, s);
            && AllRead(u) && Aligned(Shapes(u), s.start + |ls|) && s.start + |ls| <= |u|
            && HotsFrom(Shapes(u), s.start + |ls|) == HotsFrom(Shapes(lines), s.end)
  {
    hide *;
    RewritingForm(lines, s);
    StepIsBlock(lines, s);
    RewrittenIsStep(s.lines, s.indent);
    StepEnds(lines, s);
    var ls := RewriteLines(s.lines, s.indent);
    SpliceIsRead(lines, s.start, s.end, ls);
    ShapesOfSplice(lines, s.start, s.end, ls);
    ReplaceAligned(Shapes(lines), s.start, s.end, Shapes(ls), s.indent);
  }

  lemma {:induction false} ReplaceAligned(t: Text, a: nat, b: nat, ls: Text, step: nat)
    requires Aligned(t, a) && a < |t| && a <= b <= |t| && t[a].Dash() && t[a].indent == step
    requires (b < |t| ==> t[b].Ends(step))
    requires StepShaped(ls, step)
    ensures var u := Substituted(t, a, b, ls);
            Aligned(u, a + |ls|) && a + |ls| <= |u| && HotsFrom(u, a + |ls|) == HotsFrom(t, b)
  {
    SplicedLines(t, a, b, ls);
    ReplaceKeepsAlignment(t, a, b, ls, step);
    SuffixHots(Substituted(t, a, b, ls), a + |ls|, t, b);
  }

  lemma {:induction false} GrowForm(w: World, n: int)
    requires w.places != [] && 0 <= w.at + n && 0 <= w.Last().now.end + n
    ensures var g, p := Grow(w, n), w.Last();
            && g.cut == w.cut && g.at == w.at + n && g.places == w.places[..|w.places| - 1] + [g.Last()]
            && g.Last() == Place(p.origin, Job(p.now.start, p.now.steps, p.now.end + n))
            && |g.places| == |w.places|
            && (forall i | 0 <= i < |w.places| ::
                 g.places[i].now.start == w.places[i].now.start
                 && g.places[i].origin == w.places[i].origin)
  {
  }

  /** Rewriting a step of the last job leaves the run where it stands, with the search behind the step. */
  lemma {:induction false} RewriteLayout(text: seq<Line>, lines: seq<Line>, w: World, s: Step)
    requires Layout(text, lines, s.start, w) && Settled(text, lines, w.places) && w.places != []
    requires s.start < w.at && StepAt(lines, s.start) == Some(s)
    ensures var ls, u := RewriteLines(s.lines, s.indent), Rewriting(lines, s);
            var n := |ls| - (s.end - s.start);
            && 0 <= w.at + n && 0 <= w.Last().now.end + n
            && Layout(text, u, s.start + |ls|, Grow(w, n)) && Settled(text, u, Grow(w, n).places)
            && SameUpTo(lines, u, s.start) && s.end <= w.at
  {
    hide *;
    LayoutForm(text, lines, s.start, w);
    PlacesBut(text, lines, w.places);
    var p, ls, u := w.Last(), RewriteLines(s.lines, s.indent), Rewriting(lines, s);
    LastForm(w);
    PlacedForm(text, lines, p);
    JobForm(lines, p.now);
    InJobForm(p.now, s.start);
    RewritingForm(lines, s);
    StepInJob(lines, p.now, s);
    var n := |ls| - (s.end - s.start);
    RewrittenAligned(lines, s);
    RewrittenFits(lines, p.now, s);
    AxisStaysBelow(lines, p.now, s.start, s.end, ls, u);
    GrowForm(w, n);
    GrownBy(p.now, n);
    SameThrough(text, w.cut, lines, w.at, u, w.at + n);
    LayoutIf(text, u, s.start + |ls|, Grow(w, n));
    PlacesStay(lines, u, s.start, text, w.places[..|w.places| - 1]);
    PlacedIf(text, u, Grow(w, n).Last());
    PlacesWithLast(text, u, w.places[..|w.places| - 1], Grow(w, n).Last());
  }

  lemma {:induction false} GrownBy(k: Job, n: int)
    requires 0 <= k.end + n
    ensures k.Grown(0, n) == Job(k.start, k.steps, k.end + n)
  {
  }

  lemma {:induction false} LastForm(w: World)
    requires w.places != []
    ensures w.Last() == w.places[|w.places| - 1]
  {
  }

  lemma {:induction false} PlacedForm(text: seq<Line>, lines: seq<Line>, p: Place)
    requires Placed(text, lines, p)
    ensures LaidOutJob(text, p.origin) && IsJob(lines, p.now) && AxisSet(lines, p.now)
    ensures p.origin.start < |text| && p.now.start < |lines| && lines[p.now.start] == text[p.origin.start]
  {
    hide IsJob, AxisSet;
    LaidOutForm(text, p.origin);
    JobForm(lines, p.now);
  }

  lemma {:induction false} PlacedIf(text: seq<Line>, lines: seq<Line>, p: Place)
    requires LaidOutJob(text, p.origin) && IsJob(lines, p.now) && AxisSet(lines, p.now)
    requires p.origin.start < |text| && p.now.start < |lines| && lines[p.now.start] == text[p.origin.start]
    ensures Placed(text, lines, p)
  {
    hide IsJob, AxisSet, LaidOutJob;
  }

  // ---------------------------------------------------------------- preparing a new job

  lemma {:induction false} ExposedEarlier(t: Text, from: nat, base: nat, f: nat, b: StepBlock)
    requires FirstPytestBlock(t, from, b) && from <= base
    ensures Clean(t, base, b.start)
  {
    forall r: nat | r < b.start
      ensures !ExposedFrom(t, base, r)
    {
      if ExposedFrom(t, base, r) {
        assert ExposedFrom(t, from, r);
      }
    }
  }

  /** The step found heads the text from any line on that the search has not passed. */
  lemma {:induction false} FoundHeads(lines: seq<Line>, search: nat, base: nat, s: Step)
    requires FirstStep(lines, search) == Some(s) && Aligned(Shapes(lines), search) && search <= base
    ensures Heads(lines, base, s) && search <= s.start
  {
    hide *;
    FoundStepForm(lines, search, s);
    FirstBlockIsFrontier(Shapes(lines), search, search, s.Block());
    ExposedEarlier(Shapes(lines), search, base, search, s.Block());
    HeadsIf(lines, base, s);
  }

  lemma {:induction false} FoundStepForm(lines: seq<Line>, search: nat, s: Step)
    requires FirstStep(lines, search) == Some(s)
    ensures FirstPytestBlock(Shapes(lines), search, s.Block()) && s.Block().start == s.start && search <= s.start
    ensures StepAt(lines, s.start) == Some(s) && !Cold(Shapes(s.lines))
  {
    hide FirstStep, StepAt, Cold;
    FirstStepIs(lines, search);
    FirstStepForm(lines, search);
  }

  lemma {:induction false} FirstStepForm(lines: seq<Line>, search: nat)
    ensures var r := FirstStep(lines, search);
            r.Some? ==> StepAt(lines, r.value.start) == r && !Cold(Shapes(r.value.lines))
  {
    hide FirstStep, StepAt, Cold;
  }

  /** A step behind the cut is one of the first text, and no block reaches it there. */
  lemma {:induction false} StepOfOrigin(text: seq<Line>, lines: seq<Line>, search: nat, w: World, s: Step)
    requires Layout(text, lines, search, w) && FirstStep(lines, search) == Some(s) && w.at <= s.start
    ensures PytestStep(text, s.start - w.at + w.cut)
    ensures StepAt(text, s.start - w.at + w.cut)
            == Some(Step(s.start - w.at + w.cut, s.end - w.at + w.cut, s.indent, s.lines))
  {
    hide *;
    LayoutForm(text, lines, search, w);
    FoundHeads(lines, search, search, s);
    HeadsForm(lines, search, s);
    SameBack(text, w.cut, lines, w.at);
    StepShifts(lines, w.at, text, w.cut, s.start);
    StepByForm(s, w.cut - w.at);
    SameShapes(text, w.cut, lines, w.at);
    AlignedBack(Shapes(text), w.cut, Shapes(lines), w.at, s.start - w.at);
    PytestStepIf(text, s.start - w.at + w.cut);
  }

  lemma {:induction false} CoverShifts(t: Text, i: nat, u: Text, k: nat, d: nat, x: nat)
    requires i <= |t| && k <= |u| && t[i..] == u[k..] && i <= d && Covers(t, d, x)
    ensures Covers(u, d - i + k, x - i + k)
  {
    assert |t[i..]| == |u[k..]|;
    assert forall y | k <= y < |u| :: u[y] == u[k..][y - k] == t[i..][y - k] == t[y - k + i];
  }

  lemma {:induction false} AlignedBack(t: Text, i: nat, u: Text, k: nat, x: nat)
    requires i <= |t| && k <= |u| && t[i..] == u[k..] && Aligned(t, i) && Aligned(u, k + x)
    ensures Aligned(t, i + x)
  {
    assert |t[i..]| == |u[k..]|;
    var z := i + x;
    forall d: nat | d < z
      ensures !Covers(t, d, z)
    {
      if Covers(t, d, z) {
        if d < i {
          CoverPrefix(t, d, z, i);
        } else {
          CoverShifts(t, i, u, k, d, z);
        }
      }
    }
  }

  lemma {:induction false} PytestStepIf(text: seq<Line>, d: nat)
    requires StepAt(text, d).Some? && !Cold(Shapes(StepAt(text, d).value.lines)) && Aligned(Shapes(text), d)
    ensures PytestStep(text, d)
  {
    hide StepAt, Cold, Aligned;
  }

  lemma {:induction false} PytestStepForm(text: seq<Line>, d: nat)
    requires PytestStep(text, d)
    ensures StepAt(text, d).Some? && !Cold(Shapes(StepAt(text, d).value.lines)) && Aligned(Shapes(text), d)
    ensures StepAt(text, d).value.start == d < StepAt(text, d).value.end <= |text|
  {
    hide Cold, Aligned, StepEnd;
  }

  /** No pytest step of the first text is between the cut and the step found. */
  lemma {:induction false} NoneBetween(text: seq<Line>, lines: seq<Line>, search: nat, w: World, s: Step, k: nat)
    requires Layout(text, lines, search, w) && FirstStep(lines, search) == Some(s) && w.at <= s.start
    requires w.cut <= k < s.start - w.at + w.cut
    ensures !PytestStep(text, k)
  {
    hide *;
    if PytestStep(text, k) {
      LayoutForm(text, lines, search, w);
      PytestStepForm(text, k);
      StepShifts(text, w.cut, lines, w.at, k);
      StepByForm(StepAt(text, k).value, w.at - w.cut);
      FoundHeads(lines, search, search, s);
      HeadsForm(lines, search, s);
      EarlierIsExposed(lines, search, s, k - w.cut + w.at, StepAt(text, k).value.lines);
    }
  }

  lemma {:induction false} EarlierIsExposed(lines: seq<Line>, search: nat, s: Step, k: nat, b: seq<Line>)
    requires Heads(lines, search, s) && search <= k && StepAt(lines, k).Some? && StepAt(lines, k).value.lines == b
    requires !Cold(Shapes(b))
    ensures s.start <= k
  {
    hide StepEnd, FirstStep;
    var x := StepAt(lines, k).value;
    if k < s.start {
      HeadIsExposed(Shapes(lines), search, x.Block());
      if s.start < x.end {
        BlockCovers(Shapes(lines), x.Block(), s.start);
      }
    }
  }

  /** A step behind the cut is the first pytest step of a job of the first text, which is where the rest of the text
      is. */
  lemma {:induction false} NewJob(text: seq<Line>, lines: seq<Line>, search: nat, w: World, s: Step) returns (a: Job)
    requires Layout(text, lines, search, w) && Settled(text, lines, w.places) && LaidOut(text)
    requires FirstStep(lines, search) == Some(s) && w.at <= s.start
    ensures FirstOfJob(text, a, s.start - w.at + w.cut) && w.cut <= a.start
    ensures StepAt(text, s.start - w.at + w.cut)
            == Some(Step(s.start - w.at + w.cut, s.end - w.at + w.cut, s.indent, s.lines))
  {
    hide *;
    var d := s.start - w.at + w.cut;
    StepOfOrigin(text, lines, search, w, s);
    a := JobOfStep(text, d);
    InJobForm(a, d);
    LayoutForm(text, lines, search, w);
    LaidOutForm(text, a);
    if w.places != [] {
      PlacesBut(text, lines, w.places);
      LastForm(w);
      PlacedForm(text, lines, w.Last());
      LaidOutForm(text, w.Last().origin);
      JobsApart(text, w.Last().origin, a, d);
    }
    forall k: nat | a.steps < k < d
      ensures !PytestStep(text, k)
    {
      NoneBetween(text, lines, search, w, s, k);
    }
    FirstOfJobIf(text, a, d);
  }

  lemma {:induction false} JobOfStep(text: seq<Line>, d: nat) returns (a: Job)
    requires LaidOut(text) && PytestStep(text, d)
    ensures LaidOutJob(text, a) && a.Holds(d)
  {
    hide PytestStep, LaidOutJob;
    a :| LaidOutJob(text, a) && a.Holds(d);
  }

  lemma {:induction false} FirstOfJobIf(text: seq<Line>, j: Job, d: nat)
    requires LaidOutJob(text, j) && j.Holds(d) && PytestStep(text, d)
    requires forall k: nat | j.steps < k < d :: !PytestStep(text, k)
    ensures FirstOfJob(text, j, d)
  {
    hide LaidOutJob, PytestStep;
  }

  /** The job and its step as they stand now: they are what they were in the first text. */
  lemma {:induction false} JobNow(text: seq<Line>, lines: seq<Line>, search: nat, w: World, s: Step, a: Job)
    requires Layout(text, lines, search, w) && FirstStep(lines, search) == Some(s) && w.at <= s.start
    requires FirstOfJob(text, a, s.start - w.at + w.cut) && w.cut <= a.start
    requires StepAt(text, s.start - w.at + w.cut)
             == Some(Step(s.start - w.at + w.cut, s.end - w.at + w.cut, s.indent, s.lines))
    ensures var b, d := a.By(w.at - w.cut), StepAt(text, s.start - w.at + w.cut).value;
            && b == Job(a.start + w.at - w.cut, a.steps + w.at - w.cut, a.end + w.at - w.cut)
            && LaidOutJob(lines, b) && b.Holds(s.start) && w.at <= b.start && Heads(lines, b.start, s)
               && s.start < b.end
            && InText(text, a.Bounds()) && InText(lines, b.Bounds())
            && MatrixEdit(lines, b.start, b.end).Conflict? == MatrixEdit(text, a.start, a.end).Conflict?
            && Stale(lines, b, s) == Stale(text, a, d) && Swallowed(lines, b) == Swallowed(text, a)
  {
    hide *;
    LayoutForm(text, lines, search, w);
    FirstOfJobForm(text, a, s.start - w.at + w.cut);
    LaidOutForm(text, a);
    ByForm(a, w.at - w.cut);
    var b, d := a.By(w.at - w.cut), StepAt(text, s.start - w.at + w.cut).value;
    FoundHeads(lines, search, b.start, s);
    HeadsForm(lines, b.start, s);
    InJobForm(b, s.start);
    VerdictShifts(text, w.cut, lines, w.at, a, d);
    StepByForm(d, w.at - w.cut);
  }

  lemma {:induction false} FirstOfJobForm(text: seq<Line>, j: Job, d: nat)
    requires FirstOfJob(text, j, d)
    ensures LaidOutJob(text, j) && j.steps < d < j.end && PytestStep(text, d)
  {
    hide LaidOutJob, PytestStep;
  }

  /** What preparing a job leaves. */
  ghost predicate Ready(lines: seq<Line>, b: Job, s: Step, v: seq<Line>, m: Job, t: Step) {
    && AllRead(v) && IsJob(v, m) && AxisSet(v, m) && m.start == b.start
    && SameFrom(lines, b.end, v, m.end) && SameUpTo(lines, v, b.start + 1)
    && m.steps < t.start < m.end && StepAt(v, t.start) == Some(t) && !Cold(Shapes(t.lines))
       && Aligned(Shapes(v), t.start)
    && t.start <= |v| && s.start <= |lines| && HotsFrom(Shapes(v), t.start) <= HotsFrom(Shapes(lines), s.start)
    && Heads(v, m.start, t)
  }

  /** A job in whose way nothing stands is prepared: axis and support steps are ensured in place, and a step is
      reached. */
  lemma {:induction false} JobIsPrepared(lines: seq<Line>, b: Job, s: Step) returns (m: Job, t: Step)
    requires AllRead(lines) && LaidOutJob(lines, b) && b.Holds(s.start) && Heads(lines, b.start, s)
    requires InText(lines, b.Bounds()) && !MatrixEdit(lines, b.start, b.end).Conflict? && !Stale(lines, b, s)
    requires !Swallowed(lines, b)
    ensures var u, k, s1 := Axed(lines, b), AxedJob(lines, b), AxedStep(lines, b, s);
            && AxisPhase(lines, b.Bounds()) == Reached(u, s1, k.Bounds()) && !Misplaces(u, k.Bounds(), s1)
            && SupportPhase(u, s1, k.Bounds()) == Reached(WithSupport(u, k.Bounds(), s1), t, m.Bounds())
            && Ready(lines, b, s, WithSupport(u, k.Bounds(), s1), m, t)
  {
    hide *;
    LaidOutParts(lines, b);
    JobForm(lines, b);
    InJobForm(b, s.start);
    HeadsForm(lines, b.start, s);
    AxisReaches(lines, b, s);
    AxisHeads(lines, b, s);
    AxedForm(lines, b, s);
    StaleForm(lines, b, s);
    SwallowedForm(lines, b);
    var u, k, s1 := Axed(lines, b), AxedJob(lines, b), AxedStep(lines, b, s);
    AxedStands(lines, b, u, k, s1);
    GivenForm(lines, b, u);
    SparedIf(u, k, s1);
    m, t := SupportReaches(u, k, s1);
    ReadyIf(lines, b, s, u, k, s1, WithSupport(u, k.Bounds(), s1), m, t);
  }

  lemma {:induction false} AxedStands(lines: seq<Line>, b: Job, u: seq<Line>, k: Job, s: Step)
    requires Given(lines, b, u) && Heads(u, b.start, s)
    requires var n := |u| - |lines|;
             n >= 0 && k == Job(b.start, b.steps + n, b.end + n) == b.Grown(n, n) && k.steps < s.start
    ensures Stands(u, k, s.start)
  {
    hide *;
    GivenForm(lines, b, u);
    HeadsForm(u, b.start, s);
    var n := |u| - |lines|;
    JobForm(u, k);
    SameTexts(u, k.end, k.steps + 1);
    StepsGrownForm(b, n);
    AxisStays(u, u, b.Grown(n, 0), k);
    StandsIf(u, k, s.start);
  }

  lemma {:induction false} StepsGrownForm(b: Job, n: nat)
    ensures b.Grown(n, 0) == Job(b.start, b.steps + n, b.end)
  {
  }

  lemma {:induction false} SparedIf(u: seq<Line>, k: Job, s: Step)
    requires IsJob(u, k) && Heads(u, k.start, s) && k.steps < s.start < k.end && !AllRefreshed(u, k)
    ensures Spared(u, k)
  {
    HeadBlock(u, k.start, s);
    HeadsForm(u, k.start, s);
    StepInJob(u, k, s);
    hide InstallRefresh, ExposedFrom, Heads, IsJob, StepAt;
    HeadIsExposed(Shapes(u), k.start, s.Block());
  }

  lemma {:induction false} ReadyIf(lines: seq<Line>, b: Job, s: Step, u: seq<Line>, k: Job, s1: Step, v: seq<Line>,
                                   m: Job, t: Step)
    requires Given(lines, b, u) && IsJob(lines, b) && s.start <= |lines|
    requires var n := |u| - |lines|; n >= 0 && k == Job(b.start, b.steps + n, b.end + n)
    requires s1.start <= |u| && HotsFrom(Shapes(u), s1.start) <= HotsFrom(Shapes(lines), s.start)
    requires Follows(u, k, s1.start, v, m, t.start) && Heads(v, k.start, t) && m.Holds(t.start)
    ensures Ready(lines, b, s, v, m, t)
  {
    hide *;
    JobForm(lines, b);
    GivenForm(lines, b, u);
    FollowsForm(u, k, s1.start, v, m, t.start);
    StandsForm(v, m, t.start);
    HeadsForm(v, k.start, t);
    InJobForm(m, t.start);
    SameLater(lines, b.steps, u, k.steps, b.end - b.steps);
    SameThrough(lines, b.end, u, k.end, v, m.end);
    SameUpToLess(u, v, k.steps + 1, b.start + 1);
    SameUpToThrough(lines, u, v, b.start + 1);
    ReadyParts(lines, b, s, v, m, t);
  }

  lemma {:induction false} ReadyParts(lines: seq<Line>, b: Job, s: Step, v: seq<Line>, m: Job, t: Step)
    requires AllRead(v) && IsJob(v, m) && AxisSet(v, m) && m.start == b.start
    requires SameFrom(lines, b.end, v, m.end) && SameUpTo(lines, v, b.start + 1)
    requires m.steps < t.start < m.end && StepAt(v, t.start) == Some(t) && !Cold(Shapes(t.lines))
    requires Aligned(Shapes(v), t.start)
    requires t.start <= |v| && s.start <= |lines| && HotsFrom(Shapes(v), t.start) <= HotsFrom(Shapes(lines), s.start)
    requires Heads(v, m.start, t)
    ensures Ready(lines, b, s, v, m, t)
  {
    hide AllRead, IsJob, AxisSet, SameFrom, SameUpTo, StepAt, Cold, Aligned, HotsFrom, Heads;
  }

  // ---------------------------------------------------------------- the keys of jobs

  lemma {:induction false} OffsetPrefix(a: seq<Line>, b: seq<Line>, newline: nat, x: nat)
    requires SameUpTo(a, b, x)
    ensures OffsetAt(a, newline, x) == OffsetAt(b, newline, x)
    decreases x
  {
    if x > 0 {
      OffsetPrefix(a, b, newline, x - 1);
    }
  }

  /** Lines further down have larger offsets. */
  lemma {:induction false} OffsetsGrow(lines: seq<Line>, newline: nat, x: nat, y: nat)
    requires 0 < newline && x < y
    ensures OffsetAt(lines, newline, x) < OffsetAt(lines, newline, y)
    decreases y
  {
    if x < y - 1 {
      OffsetsGrow(lines, newline, x, y - 1);
    }
  }

  /** The jobs `after` start where the jobs `places` do. */
  ghost predicate SameStarts(places: seq<Place>, after: seq<Place>) {
    && (forall p | p in after :: StartsAt(places, p.now.start))
       && (forall p | p in places :: StartsAt(after, p.now.start))
  }

  /** The offsets of the first lines of the jobs are as they were. */
  ghost predicate OffsetsStay(a: seq<Line>, b: seq<Line>, newline: nat, places: seq<Place>) {
    forall p | p in places :: OffsetAt(b, newline, p.now.start) == OffsetAt(a, newline, p.now.start)
  }

  lemma {:induction false} KeyedSame(s: State, n: State, newline: nat, places: seq<Place>, after: seq<Place>)
    requires Keyed(s, newline, places) && n.keys == s.keys && n.axisDone == s.axisDone && n.supportDone == s.supportDone
    requires SameStarts(places, after) && OffsetsStay(s.lines, n.lines, newline, places)
    ensures Keyed(n, newline, after)
  {
    hide OffsetAt, IsKey;
    forall p | p in after
      ensures KnownKey(n, newline, p)
    {
      var q :| q in places && q.now.start == p.now.start;
      assert KnownKey(s, newline, q);
    }
    forall x | x in n.keys
      ensures StartsAt(after, x)
    {
      assert StartsAt(places, x);
      var q :| q in places && q.now.start == x;
      assert StartsAt(after, q.now.start);
    }
  }

  lemma {:induction false} KeyedMore(s: State, n: State, newline: nat, places: seq<Place>, p: Place, key: Bounds)
    requires Keyed(s, newline, places) && p.now.start !in s.keys && n.keys == s.keys[p.now.start := key]
    requires n.axisDone == s.axisDone + {key} && n.supportDone == s.supportDone + {key}
    requires key.0 == OffsetAt(n.lines, newline, p.now.start) && OffsetsStay(s.lines, n.lines, newline, places)
    ensures Keyed(n, newline, places + [p])
  {
    hide OffsetAt, StartsAt, IsKey;
    forall q | q in places + [p]
      ensures KnownKey(n, newline, q)
    {
      if q in places {
        assert KnownKey(s, newline, q);
      }
    }
    forall x | x in n.keys
      ensures StartsAt(places + [p], x)
    {
      StartsMore(places, p, x);
    }
    forall k | k in n.axisDone || k in n.supportDone
      ensures IsKey(n.keys, k)
    {
      KeyMore(s.keys, p.now.start, key, k);
    }
  }

  lemma {:induction false} StartsMore(places: seq<Place>, p: Place, x: nat)
    requires x == p.now.start || StartsAt(places, x)
    ensures StartsAt(places + [p], x)
  {
    if x == p.now.start {
      assert p in places + [p];
    } else {
      var q :| q in places && q.now.start == x;
      assert q in places + [p];
    }
  }

  lemma {:induction false} KeyMore(keys: map<nat, Bounds>, x: nat, key: Bounds, k: Bounds)
    requires x !in keys && (k == key || IsKey(keys, k))
    ensures IsKey(keys[x := key], k)
  {
    var m := keys[x := key];
    if k == key {
      assert x in m && m[x] == k;
    } else {
      var y :| y in keys && keys[y] == k;
      assert y in m && m[y] == k;
    }
  }

  lemma {:induction false} KeyedForm(s: State, newline: nat, places: seq<Place>, p: Place)
    requires Keyed(s, newline, places) && p in places
    ensures var x := p.now.start; x in s.keys && s.keys[x] in s.axisDone && s.keys[x] in s.supportDone
  {
    hide OffsetAt, StartsAt, IsKey;
    assert KnownKey(s, newline, p);
  }

  /** A job behind those dealt with has a key of its own. */
  lemma {:induction false} NewKey(s: State, newline: nat, places: seq<Place>, job: Bounds)
    requires Keyed(s, newline, places) && 0 < newline && forall p | p in places :: p.now.start < job.0
    ensures job.0 !in s.keys && s.KeyOf(job, newline) !in s.axisDone && s.KeyOf(job, newline) !in s.supportDone
    ensures s.KeyOf(job, newline).0 == OffsetAt(s.lines, newline, job.0)
    ensures s.KeysWith(job, newline) == s.keys[job.0 := s.KeyOf(job, newline)]
  {
    hide OffsetAt;
    forall x | x in s.keys
      ensures x < job.0 && s.keys[x].0 < OffsetAt(s.lines, newline, job.0)
    {
      assert StartsAt(places, x);
      var p :| p in places && p.now.start == x;
      assert KnownKey(s, newline, p);
      OffsetsGrow(s.lines, newline, x, job.0);
    }
    assert job.0 !in s.keys;
    var key := s.KeyOf(job, newline);
    assert !IsKey(s.keys, key);
  }

  /** All jobs dealt with end before the place where the text is as it was. */
  lemma {:induction false} PlacesEnd(text: seq<Line>, lines: seq<Line>, search: nat, w: World)
    requires Layout(text, lines, search, w) && Settled(text, lines, w.places)
    ensures forall i | 0 <= i < |w.places| :: w.places[i].now.start < w.places[i].now.end <= w.at
    ensures forall p | p in w.places :: p.now.start < w.at
  {
    LayoutForm(text, lines, search, w);
    hide Layout, Placed;
    forall i | 0 <= i < |w.places|
      ensures w.places[i].now.start < w.places[i].now.end <= w.at
    {
      PlacedForm(text, lines, w.places[i]);
      JobForm(lines, w.places[i].now);
      PlacedForm(text, lines, w.Last());
      JobForm(lines, w.Last().now);
    }
  }

  // ---------------------------------------------------------------- a round

  lemma {:induction false} InvForm(text: seq<Line>, s: State, newline: nat, w: World)
    requires Inv(text, s, newline, w)
    ensures Layout(text, s.lines, s.search, w) && Settled(text, s.lines, w.places) && Keyed(s, newline, w.places)
    ensures Covered(text, w)
  {
    hide Layout, Settled, Keyed, Covered;
  }

  lemma {:induction false} InvIf(text: seq<Line>, s: State, newline: nat, w: World)
    requires Layout(text, s.lines, s.search, w) && Settled(text, s.lines, w.places) && Keyed(s, newline, w.places)
    requires Covered(text, w)
    ensures Inv(text, s, newline, w)
  {
    hide Layout, Settled, Keyed, Covered;
  }

  lemma {:induction false} RoundForm(s: State, newline: nat, step: Step, job: Bounds, p: Phase)
    requires FirstStep(s.lines, s.search) == Some(step) && JobOf(s.lines, step.start) == Some(job)
    requires p == Prepared(s, step, job, newline)
    ensures p.Stopped? ==> RoundOf(s, newline) == Broken(p.error)
    ensures p.Reached? && StepAt(p.lines, p.step.start) == Some(p.step) ==>
              && p.step.start < p.step.end <= |p.lines|
              && RoundOf(s, newline) == Done(
                State(Rewriting(p.lines, p.step), p.step.start + |RewriteLines(p.step.lines, p.step.indent)|,
                      s.KeysWith(job, newline), s.axisDone + {s.KeyOf(job, newline)},
                          s.supportDone + {s.KeyOf(job, newline)}),
                Preparations(s, step, job, newline) + [StepRewritten(p.lines, p.step)])
  {
    hide FirstStep, JobOf, Prepared, Preparations, Rewriting, RewriteLines, OffsetAt, StepEnd;
  }

  lemma {:induction false} KnownIsPrepared(s: State, step: Step, job: Bounds, newline: nat)
    requires InText(s.lines, job) && job.0 in s.keys && s.keys[job.0] in s.axisDone && s.keys[job.0] in s.supportDone
    ensures Prepared(s, step, job, newline) == Reached(s.lines, step, job) && Preparations(s, step, job, newline) == []
    ensures s.KeysWith(job, newline) == s.keys
    ensures s.axisDone + {s.KeyOf(job, newline)} == s.axisDone
    ensures s.supportDone + {s.KeyOf(job, newline)} == s.supportDone
  {
    hide OffsetAt, AxisPhase, SupportPhase;
  }

  lemma {:induction false} NewIsPrepared(s: State, step: Step, job: Bounds, newline: nat)
    requires InText(s.lines, job) && s.KeyOf(job, newline) !in s.axisDone && s.KeyOf(job, newline) !in s.supportDone
    ensures var a := AxisPhase(s.lines, job);
            && Prepared(s, step, job, newline) == (if a.Stopped? then a else SupportPhase(a.lines, a.step, a.job))
            && Preparations(s, step, job, newline)
               == [AxisEnsured(s.lines, job)] + (if a.Stopped? then [] else [SupportEnsured(a.lines, a.job, a.step)])
  {
    hide OffsetAt, AxisPhase, SupportPhase;
  }

  /** What a round did: the next state, the changes, and where the run stands. */
  ghost predicate Advances(text: seq<Line>, s: State, newline: nat, n: State, w: World) {
    && Inv(text, n, newline, w)
    && s.search <= |s.lines| && n.search <= |n.lines|
    && HotsFrom(Shapes(n.lines), n.search) < HotsFrom(Shapes(s.lines), s.search)
  }

  lemma {:induction false} AdvancesIf(text: seq<Line>, s: State, newline: nat, n: State, w: World)
    requires Inv(text, n, newline, w) && s.search <= |s.lines| && n.search <= |n.lines|
    requires HotsFrom(Shapes(n.lines), n.search) < HotsFrom(Shapes(s.lines), s.search)
    ensures Advances(text, s, newline, n, w)
  {
    hide Inv, HotsFrom;
  }

  lemma {:induction false} HotStep(lines: seq<Line>, s: Step)
    requires StepAt(lines, s.start) == Some(s) && !Cold(Shapes(s.lines))
    ensures s.start < s.end <= |lines| && HotsFrom(Shapes(lines), s.end) < HotsFrom(Shapes(lines), s.start)
  {
    hide StepEnd, HotsFrom;
    var t := Shapes(lines);
    var r: nat :| Hot(Shapes(s.lines), r);
    HotInBlock(t, s.Block(), s.start + r);
    HotsShrink(t, s.start, s.end);
  }

  lemma {:induction false} LayoutLater(text: seq<Line>, lines: seq<Line>, search: nat, w: World, f: nat)
    requires Layout(text, lines, search, w) && search <= f < w.at && Aligned(Shapes(lines), f)
    ensures Layout(text, lines, f, w)
  {
    hide AllRead, SameFrom, Aligned;
  }

  lemma {:induction false} StartsStay(places: seq<Place>, lines: seq<Line>, u: seq<Line>, x: nat, newline: nat)
    requires SameUpTo(lines, u, x) && forall p | p in places :: p.now.start <= x
    ensures OffsetsStay(lines, u, newline, places)
  {
    hide OffsetAt;
    forall p | p in places
      ensures OffsetAt(u, newline, p.now.start) == OffsetAt(lines, newline, p.now.start)
    {
      SameUpToLess(lines, u, x, p.now.start);
      OffsetPrefix(lines, u, newline, p.now.start);
    }
  }

  lemma {:induction false} GrowStarts(w: World, n: int)
    requires w.places != [] && 0 <= w.at + n && 0 <= w.Last().now.end + n
    ensures SameStarts(w.places, Grow(w, n).places)
  {
    var after := Grow(w, n).places;
    GrowForm(w, n);
    forall p | p in after
      ensures StartsAt(w.places, p.now.start)
    {
      var i :| 0 <= i < |after| && after[i] == p;
      assert w.places[i] in w.places;
    }
    forall p | p in w.places
      ensures StartsAt(after, p.now.start)
    {
      var i :| 0 <= i < |w.places| && w.places[i] == p;
      assert after[i] in after;
    }
  }

  /** The last job dealt with holds the step found: the round rewrites it, and nothing else. */
  lemma {:induction false} RoundInJob(text: seq<Line>, s: State, newline: nat, w: World, step: Step)
    returns (n: State, v: World)
    requires Inv(text, s, newline, w) && FirstStep(s.lines, s.search) == Some(step) && step.start < w.at
    ensures RoundOf(s, newline) == Done(n, [StepRewritten(s.lines, step)]) && Advances(text, s, newline, n, v)
    ensures n.lines == Rewriting(s.lines, step) && n.search == step.start + |RewriteLines(step.lines, step.indent)|
    ensures Regrown(w, step, v)
  {
    hide *;
    InvForm(text, s, newline, w);
    LayoutForm(text, s.lines, s.search, w);
    FoundHeads(s.lines, s.search, s.search, step);
    HeadsForm(s.lines, s.search, step);
    var p, ls := w.Last(), RewriteLines(step.lines, step.indent);
    LastForm(w);
    PlacesBut(text, s.lines, w.places);
    PlacesEnd(text, s.lines, s.search, w);
    PlacedForm(text, s.lines, p);
    JobForm(s.lines, p.now);
    JobLocated(s.lines, p.now, step.start);
    KeyedForm(s, newline, w.places, p);
    KnownIsPrepared(s, step, p.now.Bounds(), newline);
    RoundForm(s, newline, step, p.now.Bounds(), Reached(s.lines, step, p.now.Bounds()));
    LayoutLater(text, s.lines, s.search, w, step.start);
    RewriteLayout(text, s.lines, w, step);
    var m := |ls| - (step.end - step.start);
    v := Grow(w, m);
    GrowForm(w, m);
    n := State(Rewriting(s.lines, step), step.start + |ls|, s.keys, s.axisDone, s.supportDone);
    NothingBefore(StepRewritten(s.lines, step));
    StartsBefore(text, s.lines, w.places, step.start);
    StartsStay(w.places, s.lines, n.lines, step.start, newline);
    GrowStarts(w, m);
    KeyedSame(s, n, newline, w.places, v.places);
    CoveredSame(text, w, v);
    InvIf(text, n, newline, v);
    RewrittenAligned(s.lines, step);
    HotStep(s.lines, step);
    HotsShrink(Shapes(s.lines), s.search, step.start);
    AdvancesIf(text, s, newline, n, v);
    RegrownIf(w, step);
  }

  /** World `v` is `w` after the rewriting of a step of the last job. */
  ghost predicate Regrown(w: World, t: Step, v: World) {
    var n := |RewriteLines(t.lines, t.indent)| - (t.end - t.start);
    w.places != [] && 0 <= w.at + n && 0 <= w.Last().now.end + n && v == Grow(w, n)
  }

  lemma {:induction false} RegrownIf(w: World, t: Step)
    requires var n := |RewriteLines(t.lines, t.indent)| - (t.end - t.start);
             w.places != [] && 0 <= w.at + n && 0 <= w.Last().now.end + n
    ensures Regrown(w, t, Grow(w, |RewriteLines(t.lines, t.indent)| - (t.end - t.start)))
  {
    hide RewriteLines;
  }

  lemma {:induction false} RegrownForm(w: World, t: Step, v: World)
    requires Regrown(w, t, v)
    ensures var n := |RewriteLines(t.lines, t.indent)| - (t.end - t.start);
            w.places != [] && 0 <= w.at + n && 0 <= w.Last().now.end + n && v == Grow(w, n) && v.cut == w.cut
                && v.at == w.at + n
  {
    hide RewriteLines;
  }

  /** Jobs start before a line below the steps key of the last one. */
  lemma {:induction false} StartsBefore(text: seq<Line>, lines: seq<Line>, places: seq<Place>, x: nat)
    requires Settled(text, lines, places) && places != [] && places[|places| - 1].now.steps < x
    ensures forall p | p in places :: p.now.start <= x
  {
    hide Placed, IsJob, AxisSet, LaidOutJob;
    forall p | p in places
      ensures p.now.start <= x
    {
      var i :| 0 <= i < |places| && places[i] == p;
      PlacedForm(text, lines, places[i]);
      JobForm(lines, places[i].now);
      PlacedForm(text, lines, places[|places| - 1]);
      JobForm(lines, places[|places| - 1].now);
    }
  }

  lemma {:induction false} NothingBefore(c: Change)
    ensures [] + [c] == [c]
  {
  }

  lemma {:induction false} CoveredSame(text: seq<Line>, w: World, v: World)
    requires Covered(text, w) && v.cut == w.cut && |v.places| == |w.places|
    requires forall i | 0 <= i < |w.places| :: v.places[i].origin == w.places[i].origin
    ensures Covered(text, v)
  {
    hide PytestStep;
    forall d: nat | PytestStep(text, d) && d < v.cut
      ensures exists i :: 0 <= i < |v.places| && v.places[i].origin.Holds(d)
    {
      var i :| 0 <= i < |w.places| && w.places[i].origin.Holds(d);
      assert v.places[i].origin.Holds(d);
    }
  }

  // ---------------------------------------------------------------- a round on a new job

  /** The step found is the first pytest step of job `a` of the first text, which is job `b` now. */
  ghost predicate Arrives(text: seq<Line>, s: State, newline: nat, w: World, step: Step, a: Job, b: Job) {
    && 0 < newline && Inv(text, s, newline, w) && FirstStep(s.lines, s.search) == Some(step) && w.at <= step.start
    && FirstOfJob(text, a, step.start - w.at + w.cut) && w.cut <= a.start
    && b == Job(a.start + w.at - w.cut, a.steps + w.at - w.cut, a.end + w.at - w.cut)
  }

  function Origin(w: World, step: Step): nat
    requires w.at <= step.start
  {
    step.start - w.at + w.cut
  }

  lemma {:induction false} ArrivesForm(text: seq<Line>, s: State, newline: nat, w: World, step: Step, a: Job, b: Job)
    requires Arrives(text, s, newline, w, step, a, b)
    ensures 0 < newline && Inv(text, s, newline, w) && FirstStep(s.lines, s.search) == Some(step) && w.at <= step.start
    ensures FirstOfJob(text, a, step.start - w.at + w.cut) && w.cut <= a.start
    ensures Origin(w, step) == step.start - w.at + w.cut
    ensures b == Job(a.start + w.at - w.cut, a.steps + w.at - w.cut, a.end + w.at - w.cut)
  {
    hide Inv, FirstStep, FirstOfJob;
  }

  /** The step of the first text that the found step is. */
  ghost function OriginStep(text: seq<Line>, d: nat): Step {
    if StepAt(text, d).Some? then StepAt(text, d).value else Step(0, 0, 0, [])
  }

  lemma {:induction false} ArrivesAt(text: seq<Line>, s: State, newline: nat, w: World, step: Step)
    returns (a: Job, b: Job)
    requires 0 < newline && Inv(text, s, newline, w) && LaidOut(text)
    requires FirstStep(s.lines, s.search) == Some(step) && w.at <= step.start
    ensures Arrives(text, s, newline, w, step, a, b)
  {
    hide *;
    InvForm(text, s, newline, w);
    a := NewJob(text, s.lines, s.search, w, step);
    FirstOfJobForm(text, a, step.start - w.at + w.cut);
    LaidOutForm(text, a);
    b := Job(a.start + w.at - w.cut, a.steps + w.at - w.cut, a.end + w.at - w.cut);
    ArrivesIf(text, s, newline, w, step, a, b);
  }

  lemma {:induction false} ArrivesIf(text: seq<Line>, s: State, newline: nat, w: World, step: Step, a: Job, b: Job)
    requires 0 < newline && Inv(text, s, newline, w) && FirstStep(s.lines, s.search) == Some(step) && w.at <= step.start
    requires FirstOfJob(text, a, step.start - w.at + w.cut) && w.cut <= a.start
    requires b == Job(a.start + w.at - w.cut, a.steps + w.at - w.cut, a.end + w.at - w.cut)
    ensures Arrives(text, s, newline, w, step, a, b)
  {
    hide Inv, FirstStep, FirstOfJob;
  }

  /** The job as it stands, what preparing it will meet, and its key, which is new. */
  lemma {:induction false} JobArrived(text: seq<Line>, s: State, newline: nat, w: World, step: Step, a: Job, b: Job)
    requires Arrives(text, s, newline, w, step, a, b)
    ensures LaidOutJob(s.lines, b) && b.Holds(step.start) && w.at <= b.start && Heads(s.lines, b.start, step)
    ensures AllRead(s.lines)
    ensures b.Bounds() == (b.start, b.end) && b.start < b.steps < step.start < b.end && step.start <= |s.lines|
    ensures InText(text, a.Bounds()) && InText(s.lines, b.Bounds()) && a.Bounds() == (a.start, a.end)
    ensures MatrixEdit(s.lines, b.start, b.end).Conflict? == MatrixEdit(text, a.start, a.end).Conflict?
    ensures Stale(s.lines, b, step) == Stale(text, a, OriginStep(text, Origin(w, step)))
    ensures Swallowed(s.lines, b) == Swallowed(text, a)
    ensures JobOf(s.lines, step.start) == Some(b.Bounds())
    ensures b.start !in s.keys && s.KeyOf(b.Bounds(), newline) !in s.axisDone
    ensures s.KeyOf(b.Bounds(), newline) !in s.supportDone
    ensures s.KeyOf(b.Bounds(), newline).0 == OffsetAt(s.lines, newline, b.start)
    ensures s.KeysWith(b.Bounds(), newline) == s.keys[b.start := s.KeyOf(b.Bounds(), newline)]
  {
    hide *;
    ArrivesForm(text, s, newline, w, step, a, b);
    InvForm(text, s, newline, w);
    LayoutForm(text, s.lines, s.search, w);
    StepOfOrigin(text, s.lines, s.search, w, step);
    JobNow(text, s.lines, s.search, w, step, a);
    OriginForm(text, Origin(w, step));
    FirstOfJobForm(text, a, step.start - w.at + w.cut);
    LaidOutForm(text, a);
    LaidOutForm(s.lines, b);
    ByForm(a, w.at - w.cut);
    InJobForm(b, step.start);
    HeadsForm(s.lines, b.start, step);
    LaidOutParts(s.lines, b);
    JobLocated(s.lines, b, step.start);
    PlacesEnd(text, s.lines, s.search, w);
    NewKey(s, newline, w.places, b.Bounds());
  }

  lemma {:induction false} OriginForm(text: seq<Line>, d: nat)
    ensures StepAt(text, d).Some? ==> OriginStep(text, d) == StepAt(text, d).value
  {
    hide StepAt;
  }

  /** A job with another axis ends the run with the conflict. */
  lemma {:induction false} RoundConflict(text: seq<Line>, s: State, newline: nat, w: World, step: Step, a: Job, b: Job)
    requires Arrives(text, s, newline, w, step, a, b) && InText(text, a.Bounds())
    requires MatrixEdit(text, a.start, a.end).Conflict?
    ensures RoundOf(s, newline) == Broken(MatrixConflict)
  {
    hide *;
    ArrivesForm(text, s, newline, w, step, a, b);
    JobArrived(text, s, newline, w, step, a, b);
    NewIsPrepared(s, step, b.Bounds(), newline);
    ConflictForm(s.lines, b.Bounds());
    RoundForm(s, newline, step, b.Bounds(), Prepared(s, step, b.Bounds(), newline));
  }

  lemma {:induction false} ConflictForm(lines: seq<Line>, job: Bounds)
    requires InText(lines, job) && MatrixEdit(lines, job.0, job.1).Conflict?
    ensures AxisPhase(lines, job) == Stopped(MatrixConflict)
  {
    hide MatrixEdit, WithAxis, FirstStep, JobOf;
  }

  /** A job whose support steps would be misplaced has them misplaced. */
  lemma {:induction false} RoundStale(text: seq<Line>, s: State, newline: nat, w: World, step: Step, a: Job, b: Job)
    requires Arrives(text, s, newline, w, step, a, b) && InText(text, a.Bounds())
    requires !MatrixEdit(text, a.start, a.end).Conflict?
    requires Stale(text, a, OriginStep(text, Origin(w, step)))
    ensures RoundOf(s, newline).Done? ==> !AllInPlace(RoundOf(s, newline).log)
  {
    hide *;
    ArrivesForm(text, s, newline, w, step, a, b);
    JobArrived(text, s, newline, w, step, a, b);
    NewIsPrepared(s, step, b.Bounds(), newline);
    AxisReaches(s.lines, b, step);
    StaleForm(s.lines, b, step);
    var u, k, s1 := Axed(s.lines, b), AxedJob(s.lines, b), AxedStep(s.lines, b, step);
    if RoundOf(s, newline).Done? {
      var step1, job1 := RoundParts(s, newline);
      MisplacedIsOut(AxisEnsured(s.lines, b.Bounds()), u, k.Bounds(), s1,
                     StepRewritten(Prepared(s, step, b.Bounds(), newline).lines,
                         Prepared(s, step, b.Bounds(), newline).step));
    }
  }

  lemma {:induction false} MisplacedIsOut(c: Change, u: seq<Line>, job: Bounds, s: Step, d: Change)
    requires Misplaces(u, job, s)
    ensures !AllInPlace([c] + [SupportEnsured(u, job, s)] + [d])
  {
    hide Misplaces;
    var log := [c] + [SupportEnsured(u, job, s)] + [d];
    assert log[1] in log && !log[1].InPlace();
  }

  lemma {:induction false} CoveredMore(text: seq<Line>, lines: seq<Line>, search: nat, w: World, s: Step, a: Job,
                                       v: World)
    requires Covered(text, w) && Layout(text, lines, search, w) && FirstStep(lines, search) == Some(s)
    requires w.at <= s.start
    requires LaidOutJob(text, a) && a.steps < s.start - w.at + w.cut < a.end && w.cut <= a.start
    requires v.cut == a.end && |v.places| == |w.places| + 1 && v.places[|w.places|].origin == a
    requires forall i | 0 <= i < |w.places| :: v.places[i].origin == w.places[i].origin
    ensures Covered(text, v)
  {
    hide PytestStep, Layout, FirstStep, LaidOutJob;
    forall d: nat | PytestStep(text, d) && d < v.cut
      ensures exists i :: 0 <= i < |v.places| && v.places[i].origin.Holds(d)
    {
      if d < w.cut {
        var i :| 0 <= i < |w.places| && w.places[i].origin.Holds(d);
        assert v.places[i].origin.Holds(d);
      } else {
        if d < s.start - w.at + w.cut {
          NoneBetween(text, lines, search, w, s, d);
        }
        assert v.places[|w.places|].origin.Holds(d);
      }
    }
  }

  lemma {:induction false} ReadyForm(lines: seq<Line>, b: Job, s: Step, v: seq<Line>, m: Job, t: Step)
    requires Ready(lines, b, s, v, m, t)
    ensures AllRead(v) && IsJob(v, m) && AxisSet(v, m) && m.start == b.start
    ensures SameFrom(lines, b.end, v, m.end) && SameUpTo(lines, v, b.start + 1)
    ensures m.steps < t.start < m.end && StepAt(v, t.start) == Some(t) && !Cold(Shapes(t.lines))
    ensures Aligned(Shapes(v), t.start)
    ensures t.start <= |v| && s.start <= |lines| && HotsFrom(Shapes(v), t.start) <= HotsFrom(Shapes(lines), s.start)
    ensures Heads(v, m.start, t)
  {
    hide AllRead, IsJob, AxisSet, SameFrom, SameUpTo, StepAt, Cold, Aligned, HotsFrom, Heads;
  }

  /** Where the run stands when the new job is prepared. */
  lemma {:induction false} ReadyLayout(text: seq<Line>, s: State, newline: nat, w: World, step: Step, a: Job, b: Job,
                                       v: seq<Line>, m: Job, t: Step)
    requires Arrives(text, s, newline, w, step, a, b) && Ready(s.lines, b, step, v, m, t)
    ensures var x := World(a.end, m.end, w.places + [Place(a, m)]);
            Layout(text, v, t.start, x) && Settled(text, v, x.places) && Covered(text, x) && t.start < x.at
  {
    hide *;
    ArrivesForm(text, s, newline, w, step, a, b);
    JobArrived(text, s, newline, w, step, a, b);
    InvForm(text, s, newline, w);
    LayoutForm(text, s.lines, s.search, w);
    ReadyForm(s.lines, b, step, v, m, t);
    FirstOfJobForm(text, a, step.start - w.at + w.cut);
    LaidOutForm(text, a);
    LaidOutForm(s.lines, b);
    PytestStepForm(text, step.start - w.at + w.cut);
    InJobForm(a, step.start - w.at + w.cut);
    JobEndAligned(text, a, step.start - w.at + w.cut);
    var x := World(a.end, m.end, w.places + [Place(a, m)]);
    LastForm(x);
    SameLater(text, w.cut, s.lines, w.at, a.end - w.cut);
    SameThrough(text, a.end, s.lines, b.end, v, m.end);
    LayoutIf(text, v, t.start, x);
    PlacesEnd(text, s.lines, s.search, w);
    PlacesStay(s.lines, v, b.start + 1, text, w.places);
    JobForm(v, m);
    KeyLineStays(text, w.cut, s.lines, w.at, a.start, v);
    PlacedIf(text, v, Place(a, m));
    PlacesWithLast(text, v, w.places, Place(a, m));
    CoveredMore(text, s.lines, s.search, w, step, a, x);
  }

  lemma {:induction false} KeyLineStays(text: seq<Line>, i: nat, lines: seq<Line>, k: nat, x: nat, v: seq<Line>)
    requires SameFrom(text, i, lines, k) && i <= x < |text| && SameUpTo(lines, v, x - i + k + 1)
    ensures v[x - i + k] == text[x]
  {
    SameLines(text, i, lines, k);
  }

  /** A job in whose way nothing stands is prepared, and its first pytest step is rewritten. */
  lemma {:induction false} RoundFine(text: seq<Line>, s: State, newline: nat, w: World, step: Step, a: Job, b: Job)
    returns (n: State, v: World, u: seq<Line>, k: Job, s1: Step, p: seq<Line>, m: Job, t: Step)
    requires Arrives(text, s, newline, w, step, a, b) && InText(text, a.Bounds())
    requires Fine(text, a, OriginStep(text, Origin(w, step)))
    ensures RoundOf(s, newline)
            == Done(n, [AxisEnsured(s.lines, b.Bounds()), SupportEnsured(u, k.Bounds(), s1), StepRewritten(p, t)])
    ensures Advances(text, s, newline, n, v) && v.cut == a.end && b.start < v.at && k.start == b.start
    ensures AllInPlace(RoundOf(s, newline).log)
    ensures InText(s.lines, b.Bounds()) && u == Axed(s.lines, b) && k == AxedJob(s.lines, b)
    ensures s1 == AxedStep(s.lines, b, step)
    ensures p == WithSupport(u, k.Bounds(), s1) && StepAt(p, t.start) == Some(t) && n.lines == Rewriting(p, t)
    ensures n.search == t.start + |RewriteLines(t.lines, t.indent)|
    ensures Ready(s.lines, b, step, p, m, t) && Regrown(World(a.end, m.end, w.places + [Place(a, m)]), t, v)
  {
    hide *;
    ArrivesForm(text, s, newline, w, step, a, b);
    JobArrived(text, s, newline, w, step, a, b);
    FineForm(text, a, OriginStep(text, Origin(w, step)));
    InvForm(text, s, newline, w);
    LayoutForm(text, s.lines, s.search, w);
    m, t := JobIsPrepared(s.lines, b, step);
    AxedForm(s.lines, b, step);
    u, k, s1 := Axed(s.lines, b), AxedJob(s.lines, b), AxedStep(s.lines, b, step);
    p := WithSupport(u, k.Bounds(), s1);
    NewIsPrepared(s, step, b.Bounds(), newline);
    ReadyForm(s.lines, b, step, p, m, t);
    JobForm(p, m);
    RoundForm(s, newline, step, b.Bounds(), Reached(p, t, m.Bounds()));
    ReadyLayout(text, s, newline, w, step, a, b, p, m, t);
    var x := World(a.end, m.end, w.places + [Place(a, m)]);
    RewriteLayout(text, p, x, t);
    var d := |RewriteLines(t.lines, t.indent)| - (t.end - t.start);
    v := Grow(x, d);
    GrowForm(x, d);
    LastForm(x);
    n := RoundOf(s, newline).next;
    ThreeChanges(AxisEnsured(s.lines, b.Bounds()), SupportEnsured(u, k.Bounds(), s1), StepRewritten(p, t));
    KeysGrow(text, s, newline, w, b, n, p, t.start, x.places[|w.places|], s.KeyOf(b.Bounds(), newline));
    GrowStarts(x, d);
    SelfOffsets(n.lines, newline, x.places);
    KeyedSame(n, n, newline, x.places, v.places);
    CoveredSame(text, x, v);
    InvIf(text, n, newline, v);
    RewrittenAligned(p, t);
    HotStep(p, t);
    HotsShrink(Shapes(s.lines), s.search, step.start);
    AdvancesIf(text, s, newline, n, v);
    RegrownIf(x, t);
    LayoutForm(text, n.lines, n.search, v);
  }

  lemma {:induction false} FineForm(text: seq<Line>, a: Job, s: Step)
    requires InText(text, a.Bounds()) && Fine(text, a, s)
    ensures !MatrixEdit(text, a.start, a.end).Conflict? && !Stale(text, a, s) && !Swallowed(text, a)
  {
    hide MatrixEdit, Stale, Swallowed;
  }

  lemma {:induction false} SelfOffsets(lines: seq<Line>, newline: nat, places: seq<Place>)
    ensures OffsetsStay(lines, lines, newline, places)
  {
  }

  lemma {:induction false} ThreeChanges(c: Change, d: Change, e: Change)
    ensures [c] + [d] + [e] == [c, d, e]
    ensures (d.SupportEnsured? ==> !Misplaces(d.text, d.job, d.step)) && c.AxisEnsured? && e.StepRewritten? ==>
            AllInPlace([c, d, e])
  {
    hide Misplaces;
  }

  lemma {:induction false} KeysGrow(text: seq<Line>, s: State, newline: nat, w: World, b: Job, n: State,
                                    p: seq<Line>, f: nat, q: Place, key: Bounds)
    requires Keyed(s, newline, w.places) && b.start !in s.keys && key.0 == OffsetAt(s.lines, newline, b.start)
    requires Layout(text, s.lines, s.search, w) && Settled(text, s.lines, w.places) && w.at <= b.start
    requires n.keys == s.keys[b.start := key] && n.axisDone == s.axisDone + {key}
    requires n.supportDone == s.supportDone + {key}
    requires SameUpTo(s.lines, p, b.start + 1) && SameUpTo(p, n.lines, f) && b.start < f && q.now.start == b.start
    ensures Keyed(n, newline, w.places + [q])
  {
    hide *;
    PlacesEnd(text, s.lines, s.search, w);
    SameUpToLess(p, n.lines, f, b.start + 1);
    SameUpToThrough(s.lines, p, n.lines, b.start + 1);
    StartsStay(w.places, s.lines, n.lines, b.start + 1, newline);
    SameUpToLess(s.lines, n.lines, b.start + 1, b.start);
    OffsetPrefix(s.lines, n.lines, newline, b.start);
    KeyedMore(s, n, newline, w.places, q, key);
  }
}
