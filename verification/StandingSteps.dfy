/** The rewritten steps of a run stay where they were written. */
module StandingSteps {
  import opened PyStrings
  import opened StepBlocks
  import opened WorkflowLines
  import opened StepRewriter
  import opened RewrittenSteps
  import opened JobMatrix
  import opened TextPatcher
  import opened WorkflowPatcher
  import opened JobLayouts
  import opened JobHeaders
  import opened JobPreparation
  import opened LaidOutRuns
  import opened SupportNames
  import opened StepLists

  /** The lines of a step, and where what was written for it starts. */
  datatype Stand = Stand(at: nat, was: seq<Line>)

  function DepthOf(b: seq<Line>): nat { if b == [] then 0 else b[0].Indent() }

  function NewLines(b: seq<Line>): seq<Line> { RewriteLines(b, DepthOf(b)) }

  ghost predicate IsStep(b: seq<Line>) { AllRead(b) && IsBlockLines(Shapes(b), DepthOf(b)) && !Cold(Shapes(b)) }

  /** What was written stands before line `search`, and what follows ends it. */
  ghost predicate StandsAt(lines: seq<Line>, search: nat, s: Stand) {
    var e := s.at + |NewLines(s.was)|;
    && IsStep(s.was) && e <= search <= |lines| && lines[s.at..e] == NewLines(s.was)
    && (e < |lines| ==> lines[e].shape.Ends(DepthOf(s.was)))
  }

  ghost predicate AllStand(lines: seq<Line>, search: nat, stands: seq<Stand>) {
    && (forall i | 0 <= i < |stands| :: StandsAt(lines, search, stands[i]))
    && (forall i, k | 0 <= i < k < |stands| :: stands[i].at < stands[k].at)
  }

  /** The two texts agree up to line `x`, where both have a line that ends the same blocks. */
  ghost predicate Agree(a: seq<Line>, b: seq<Line>, x: nat) {
    SameUpTo(a, b, x) && x < |a| && x < |b| && forall step: nat | a[x].shape.Ends(step) :: b[x].shape.Ends(step)
  }

  lemma {:induction false} StandStays(a: seq<Line>, b: seq<Line>, search: nat, further: nat, s: Stand)
    requires StandsAt(a, search, s) && Agree(a, b, search) && search <= further <= |b|
    ensures StandsAt(b, further, s)
  {
    hide NewLines, DepthOf, IsStep;
    var e := s.at + |NewLines(s.was)|;
    assert a[s.at..e] == b[s.at..e];
  }

  lemma {:induction false} AllStandStay(a: seq<Line>, b: seq<Line>, search: nat, further: nat, stands: seq<Stand>)
    requires AllStand(a, search, stands) && Agree(a, b, search) && search <= further <= |b|
    ensures AllStand(b, further, stands)
  {
    hide StandsAt, Agree;
    forall i | 0 <= i < |stands|
      ensures StandsAt(b, further, stands[i])
    {
      StandStays(a, b, search, further, stands[i]);
    }
  }

  lemma {:induction false} AgreeBefore(a: seq<Line>, b: seq<Line>, x: nat, y: nat)
    requires SameUpTo(a, b, y) && x < y
    ensures Agree(a, b, x)
  {
  }

  lemma {:induction false} AgreeAtStep(a: seq<Line>, u: seq<Line>, x: nat, y: nat, n: nat)
    requires Replaced(a, u, x, y, n)
    ensures Agree(a, u, x)
  {
    hide SameFrom;
  }

  lemma {:induction false} StepIsStep(lines: seq<Line>, t: Step)
    requires AllRead(lines) && StepAt(lines, t.start) == Some(t) && !Cold(Shapes(t.lines))
    ensures IsStep(t.lines) && DepthOf(t.lines) == t.indent && NewLines(t.lines) == RewriteLines(t.lines, t.indent)
  {
    StepIsBlock(lines, t);
    StepLinesThere(lines, t);
    hide StepAt, Cold, IsBlockLines, AllRead, RewriteLines, Shapes;
    assert t.lines != [] && t.lines[0] == lines[t.start];
  }

  /** Rewriting the step found adds its lines to those that stand. */
  lemma {:induction false} StandsMore(lines: seq<Line>, search: nat, stands: seq<Stand>, t: Step)
    requires AllRead(lines) && AllStand(lines, search, stands) && search <= t.start
    requires StepAt(lines, t.start) == Some(t) && !Cold(Shapes(t.lines))
    ensures AllStand(Rewriting(lines, t), t.start + |RewriteLines(t.lines, t.indent)|,
            stands + [Stand(t.start, t.lines)])
  {
    hide *;
    var ls, u := RewriteLines(t.lines, t.indent), Rewriting(lines, t);
    RewriteReplaces(lines, t);
    StepLinesThere(lines, t);
    RewritingForm(lines, t);
    StepIsStep(lines, t);
    if search == t.start {
      AgreeAtStep(lines, u, t.start, t.end, |ls|);
    } else {
      ReplacedForm(lines, u, t.start, t.end, |ls|);
      AgreeBefore(lines, u, search, t.start);
    }
    SplicedStand(lines, t, ls, u);
    AllStandStay(lines, u, search, t.start + |ls|, stands);
    StandAdded(lines, u, search, t.start + |ls|, stands, Stand(t.start, t.lines));
  }

  lemma {:induction false} SplicedStand(lines: seq<Line>, t: Step, ls: seq<Line>, u: seq<Line>)
    requires t.start < t.end <= |lines| && u == lines[..t.start] + ls + lines[t.end..] && IsStep(t.lines)
    requires ls == NewLines(t.lines) && DepthOf(t.lines) == t.indent
    requires (t.end < |lines| ==> lines[t.end].shape.Ends(t.indent))
    ensures StandsAt(u, t.start + |ls|, Stand(t.start, t.lines)) && t.start + |ls| <= |u|
  {
    hide IsStep, NewLines, DepthOf;
    var e := t.start + |ls|;
    assert u[t.start..e] == ls;
    assert e < |u| ==> u[e] == lines[t.end];
  }

  lemma {:induction false} StandAdded(lines: seq<Line>, u: seq<Line>, search: nat, further: nat, stands: seq<Stand>,
                                      s: Stand)
    requires AllStand(lines, search, stands) && AllStand(u, further, stands) && StandsAt(u, further, s)
    requires search <= s.at
    ensures AllStand(u, further, stands + [s])
  {
    hide StandsAt;
    forall i | 0 <= i < |stands|
      ensures stands[i].at < s.at
    {
      NewLinesNotEmpty(lines, search, stands[i]);
    }
  }

  lemma {:induction false} NewLinesNotEmpty(lines: seq<Line>, search: nat, s: Stand)
    requires StandsAt(lines, search, s)
    ensures s.at < s.at + |NewLines(s.was)| <= search <= |lines|
  {
    hide *;
    StandForm(lines, search, s);
    RewrittenIsStep(s.was, DepthOf(s.was));
    ShapedStart(NewLines(s.was), DepthOf(s.was));
  }

  // ---------------------------------------------------------------- what stands at the end

  /** A step with a name of its own was rewritten to one step, which sets the flag, and runs the runner if it had a run
      key. */
  lemma {:induction false} StandIsStep(lines: seq<Line>, search: nat, s: Stand)
    requires StandsAt(lines, search, s)
    ensures EnvFlagged(NewLines(s.was)) && (HasRun(s.was) ==> HasLine(NewLines(s.was), RUNNER_COMMAND))
    ensures HasName(s.was) <==>
            StepAt(lines, s.at) == Some(Step(s.at, s.at + |NewLines(s.was)|, DepthOf(s.was), NewLines(s.was)))
  {
    hide *;
    StandForm(lines, search, s);
    var ls, step := NewLines(s.was), DepthOf(s.was);
    RewrittenIsStep(s.was, step);
    RewrittenRunsRunner(s.was, step);
    ShapedStart(ls, step);
    var e := s.at + |ls|;
    if HasName(s.was) {
      BlockEnds(ls, step);
      PutForm(lines, s.at, e);
      StepPut(lines, s.at, e, ls, lines, step);
    } else if StepAt(lines, s.at) == Some(Step(s.at, e, step, ls)) {
      StepLinesThere(lines, Step(s.at, e, step, ls));
      EndsBlock(ls, step);
    }
  }

  lemma {:induction false} StandForm(lines: seq<Line>, search: nat, s: Stand)
    requires StandsAt(lines, search, s)
    ensures AllRead(s.was) && IsBlockLines(Shapes(s.was), DepthOf(s.was)) && !Cold(Shapes(s.was))
    ensures NewLines(s.was) == RewriteLines(s.was, DepthOf(s.was))
    ensures s.at + |NewLines(s.was)| <= search <= |lines| && lines[s.at..s.at + |NewLines(s.was)|] == NewLines(s.was)
    ensures s.at + |NewLines(s.was)| < |lines| ==> lines[s.at + |NewLines(s.was)|].shape.Ends(DepthOf(s.was))
  {
    hide AllRead, IsBlockLines, Cold, RewriteLines, DepthOf;
  }

  lemma {:induction false} BlockEnds(ls: seq<Line>, step: nat)
    requires IsBlockLines(Shapes(ls), step)
    ensures forall k | 0 < k < |ls| :: !ls[k].shape.Ends(step)
  {
    forall k | 0 < k < |ls|
      ensures !ls[k].shape.Ends(step)
    {
      assert Shapes(ls)[k] == ls[k].shape;
    }
  }

  lemma {:induction false} EndsBlock(ls: seq<Line>, step: nat)
    requires ls != [] && ls[0].shape.Dash() && ls[0].Indent() == step
    requires forall k | 0 < k < |ls| :: !ls[k].shape.Ends(step)
    ensures IsBlockLines(Shapes(ls), step)
  {
  }

  /** What stands in the text as a hot run key of a step is seen there. */
  lemma {:induction false} PartIsSeen(t: Text, a: nat, u: Text, d: nat, r: nat)
    requires a + |u| <= |t| && t[a..a + |u|] == u && Hot(u, r) && Covers(u, d, r)
    ensures HasPytestStep(t)
  {
    assert forall y | 0 <= y < |u| :: t[a + y] == u[y];
    var x: nat :| InBody(u, r, x) && u[x].pytest;
    forall y | a + r < y <= a + x
      ensures !t[y].Run() && t[a + r].indent < t[y].indent
    {
      assert t[y] == u[y - a];
    }
    assert InBody(t, a + r, a + x);
    forall y | a + d < y <= a + r
      ensures !t[y].Ends(t[a + d].indent)
    {
      assert t[y] == u[y - a];
    }
    assert Covers(t, a + d, a + r);
    assert ExposedFrom(t, 0, a + r);
  }

  /** A step that stays hot leaves the text with a pytest step. */
  lemma {:induction false} StandStaysHot(lines: seq<Line>, search: nat, s: Stand)
    requires StandsAt(lines, search, s) && StaysHot(s.was, DepthOf(s.was))
    ensures HasPytestStep(Shapes(lines))
  {
    hide *;
    StandForm(lines, search, s);
    var step, ls := DepthOf(s.was), NewLines(s.was);
    RewrittenIsCold(s.was, step);
    NotCold(Shapes(ls));
    var r: nat :| Hot(Shapes(ls), r);
    var d := HotIsCovered(s.was, step, r);
    ShapesOfPart(lines, s.at, ls);
    PartIsSeen(Shapes(lines), s.at, Shapes(ls), d, r);
  }

  lemma {:induction false} ShapesOfPart(lines: seq<Line>, a: nat, ls: seq<Line>)
    requires a + |ls| <= |lines| && lines[a..a + |ls|] == ls
    ensures |Shapes(ls)| == |ls| && |Shapes(lines)| == |lines| && Shapes(lines)[a..a + |ls|] == Shapes(ls)
  {
    forall y | 0 <= y < |ls|
      ensures Shapes(lines)[a..a + |ls|][y] == Shapes(ls)[y]
    {
      assert lines[a + y] == lines[a..a + |ls|][y];
    }
  }

  lemma {:induction false} NotCold(t: Text)
    requires !Cold(t)
    ensures exists r: nat :: Hot(t, r)
  {
    hide Hot;
  }
}
