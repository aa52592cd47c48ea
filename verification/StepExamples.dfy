/** Steps that show where rewriting one falls short: a run key that is copied, a run key whose replacement takes in
    what follows, and steps without a name, which become two, where the flag may end a body. */
module StepExamples {
  import opened PyStrings
  import opened StepBlocks
  import opened WorkflowLines
  import opened StepNames
  import opened StepRewriter
  import opened RewrittenSteps
  import opened TextPatcher

  const RUN_PYTEST := "run: pytest"
  const NOTE_PYTEST := "note: pytest"
  const PLAIN_NAME := "- name: t"
  const PLAIN_ID := "- id: x"

  lemma {:induction false} NoInstall(s: string)
    requires forall i: nat | i + 1 < |s| :: !(Lower(s[i]) == 'p' && Lower(s[i + 1]) == 'i')
    ensures !InstallsPackages(s)
  {
    forall i: nat, p: string | p == "pip install" || p == "pip3 install" || p == "pipenv install"
      ensures !OccursAt(s, p, i)
    {
      assert p[0] == 'p' && p[1] == 'i';
    }
  }

  lemma {:induction false} RunPytestRunsPytest()
    ensures RunsPytest(RUN_PYTEST) && KindOf(RUN_PYTEST) == RunKey && !Named(RUN_PYTEST)
  {
    assert PytestWordAt(RUN_PYTEST, 5);
    assert RUN_PYTEST[..4] == "run:" && RUN_PYTEST[0] == 'r';
    NoInstall(RUN_PYTEST);
    if Named(RUN_PYTEST) { NamedStart(RUN_PYTEST); }
  }

  lemma {:induction false} NoteRunsPytest()
    ensures RunsPytest(NOTE_PYTEST) && KindOf(NOTE_PYTEST) == Other
  {
    assert PytestWordAt(NOTE_PYTEST, 6);
    OtherKey(NOTE_PYTEST, 'n');
    NoInstall(NOTE_PYTEST);
  }

  lemma {:induction false} PlainNameIsNamed()
    ensures Named(PLAIN_NAME) && KindOf(PLAIN_NAME) == Kind.Dash
  {
    assert PLAIN_NAME[..7] == "- name:";
  }

  lemma {:induction false} PlainIdIsNoName()
    ensures !Named(PLAIN_ID) && KindOf(PLAIN_ID) == Kind.Dash && !RunsPytest(PLAIN_ID)
  {
    assert PLAIN_ID[2] == 'i' && "- name:"[2] == 'n' && PLAIN_ID[0] == '-' && "name:"[0] == 'n';
    assert NoLetterY(PLAIN_ID);
  }

  // ---------------------------------------------------------------- steps that stay hot

  lemma {:induction false} NamedIsUncut(b: seq<Line>, step: nat)
    requires b != [] && Named(b[0].text) && LeavesSome(b, step)
    ensures StaysHot(b, step)
  {
    hide Named, Leaves, NextLine;
    assert !Enclosed(b, 0);
    NothingCut(b, step);
  }

  lemma {:induction false} StaysHotAfterwards(b: seq<Line>, step: nat)
    requires AllRead(b) && IsBlockLines(Shapes(b), step) && StaysHot(b, step)
    ensures !Cold(Shapes(RewriteLines(b, step)))
  {
    hide *;
    RewrittenIsCold(b, step);
  }

  lemma {:induction false} SecondIsOwn(b: seq<Line>)
    requires |b| == 3 && !b[0].shape.Env() && !b[0].shape.Run()
    ensures !Enclosed(b, 1)
  {
  }

  ghost predicate NameEnvRun(b: seq<Line>, step: nat) {
    && |b| == 3 && Named(b[0].text) && b[0].shape.kind == Kind.Dash && b[0].Indent() == step
    && b[1].shape == Shape(step + 2, EnvKey, false) && b[2].shape == Shape(step + 4, RunKey, true)
  }

  lemma {:induction false} EnvRunStaysHot(b: seq<Line>, step: nat)
    requires NameEnvRun(b, step)
    ensures IsBlockLines(Shapes(b), step) && StaysHot(b, step)
  {
    hide Named;
    SecondIsOwn(b);
    var t := Shapes(b);
    assert InBody(t, 2, 2) && t[2].pytest;
    assert Hot(t, 2) && Under(t, 1, 2);
    assert Leaves(b, step, 1);
    NamedIsUncut(b, step);
  }

  /** A variable called run in an env mapping is taken for a run key by the search, but not by the rewriter. */
  lemma {:induction false} RunUnderEnvSurvives(step: nat) returns (b: seq<Line>)
    ensures b == [Read(step, PLAIN_NAME), EnvLine(step + 2), Read(step + 4, RUN_PYTEST)]
    ensures AllRead(b) && IsBlockLines(Shapes(b), step) && StaysHot(b, step) && !Cold(Shapes(RewriteLines(b, step)))
  {
    hide *;
    b := [Read(step, PLAIN_NAME), EnvLine(step + 2), Read(step + 4, RUN_PYTEST)];
    RunPytestRunsPytest();
    PlainNameIsNamed();
    ReadForm(step, PLAIN_NAME);
    ReadForm(step + 4, RUN_PYTEST);
    ThreeRead(b);
    NameEnvRunIf(b, step);
    EnvRunStaysHot(b, step);
    StaysHotAfterwards(b, step);
  }

  lemma {:induction false} ReadForm(n: nat, s: string)
    ensures var l := Read(n, s);
            l.text == s && l.shape == Shape(n, KindOf(s), RunsPytest(s)) && l.Indent() == n && WellRead(l)
  {
    hide KindOf, RunsPytest;
  }

  lemma {:induction false} ThreeRead(b: seq<Line>)
    requires |b| == 3 && WellRead(b[0]) && WellRead(b[1]) && WellRead(b[2])
    ensures AllRead(b)
  {
    hide WellRead;
  }

  lemma {:induction false} NameEnvRunIf(b: seq<Line>, step: nat)
    requires |b| == 3 && Named(b[0].text) && b[0].shape.kind == Kind.Dash && b[0].Indent() == step
    requires b[1].shape == Shape(step + 2, EnvKey, false) && b[2].shape == Shape(step + 4, RunKey, true)
    ensures NameEnvRun(b, step)
  {
    hide Named;
  }

  ghost predicate NameRunNote(b: seq<Line>, step: nat) {
    && |b| == 3 && Named(b[0].text) && b[0].shape.kind == Kind.Dash && b[0].Indent() == step && !Named(b[1].text)
    && b[1].shape == Shape(step + 4, RunKey, true) && b[2].shape == Shape(step + 4, Other, true)
  }

  lemma {:induction false} DeepRunStaysHot(b: seq<Line>, step: nat)
    requires NameRunNote(b, step)
    ensures IsBlockLines(Shapes(b), step) && StaysHot(b, step)
  {
    hide Named;
    SecondIsOwn(b);
    assert NextLine(b, 1) == 2;
    assert Leads(Shapes(b), 2, step + 2);
    assert Leaves(b, step, 1);
    NamedIsUncut(b, step);
  }

  lemma {:induction false} NameRunNoteIf(b: seq<Line>, step: nat)
    requires |b| == 3 && Named(b[0].text) && b[0].shape.kind == Kind.Dash && b[0].Indent() == step && !Named(b[1].text)
    requires b[1].shape == Shape(step + 4, RunKey, true) && b[2].shape == Shape(step + 4, Other, true)
    ensures NameRunNote(b, step)
  {
    hide Named;
  }

  /** A run key four columns deeper than the dash is replaced by one two columns deeper, whose body takes in the next
      key. */
  lemma {:induction false} DeepRunSurvives(step: nat) returns (b: seq<Line>)
    ensures b == [Read(step, PLAIN_NAME), Read(step + 4, RUN_PYTEST), Read(step + 4, NOTE_PYTEST)]
    ensures AllRead(b) && IsBlockLines(Shapes(b), step) && StaysHot(b, step) && !Cold(Shapes(RewriteLines(b, step)))
  {
    hide *;
    b := [Read(step, PLAIN_NAME), Read(step + 4, RUN_PYTEST), Read(step + 4, NOTE_PYTEST)];
    RunPytestRunsPytest();
    NoteRunsPytest();
    PlainNameIsNamed();
    ReadForm(step, PLAIN_NAME);
    ReadForm(step + 4, RUN_PYTEST);
    ReadForm(step + 4, NOTE_PYTEST);
    ThreeRead(b);
    NameRunNoteIf(b, step);
    DeepRunStaysHot(b, step);
    StaysHotAfterwards(b, step);
  }

  // ---------------------------------------------------------------- a step without a name

  ghost predicate IdRun(b: seq<Line>, step: nat) {
    && |b| == 2 && !Named(b[0].text) && b[0].shape == Shape(step, Kind.Dash, false)
    && !Named(b[1].text) && b[1].shape == Shape(step + 2, RunKey, true)
  }

  function NewName(step: nat): Line { NameLine(step, NEW_NAME) }

  lemma {:induction false} IdRunDraft(b: seq<Line>, step: nat)
    requires IdRun(b, step)
    ensures Rewrite(b, step, 0, BLANK) == Draft([b[0], RunHeader(step + 2), RunnerLine(step + 4)], false, Some(1),
            [0, -1, -1])
  {
    hide Named, Rewrite, RunHeader, RunnerLine;
    assert NextLine(b, 0) == 1 && NextLine(b, 1) == 2;
    var d1 := NextDraft(b, step, 0, BLANK);
    assert d1 == Draft([b[0]], false, None, [0]);
    RewriteNext(b, step, 0, BLANK);
    RewriteNext(b, step, 1, d1);
    RewriteNext(b, step, 2, NextDraft(b, step, 1, d1));
  }

  lemma {:induction false} NoEnvInFour(u: seq<Line>, step: nat)
    requires |u| == 4 && forall k | 0 <= k < 4 :: !u[k].shape.Env()
    ensures WithEnv(u, step, Some(1)) == [u[0], EnvLine(step + 2), EnvFlagLine(step + 4), u[1], u[2], u[3]]
  {
    hide HasText, EnvFlagLine, EnvLine;
    assert FirstEnv(u, 3) == 4;
    assert FirstEnv(u, 2) == 4;
    assert FirstEnv(u, 1) == 4;
  }

  lemma {:induction false} IdRunRewrites(b: seq<Line>, step: nat)
    requires IdRun(b, step)
    ensures RewriteLines(b, step)
            == [NewName(step), EnvLine(step + 2), EnvFlagLine(step + 4), b[0], RunHeader(step + 2),
                RunnerLine(step + 4)]
  {
    hide Named, Rewrite, RunHeader, RunnerLine, NameLine, WithEnv, EnvLine, EnvFlagLine;
    IdRunDraft(b, step);
    var u := [NewName(step), b[0], RunHeader(step + 2), RunnerLine(step + 4)];
    assert [NewName(step)] + [b[0], RunHeader(step + 2), RunnerLine(step + 4)] == u;
    NoEnvInFour(u, step);
  }

  lemma {:induction false} TwoBlocks(u: seq<Line>, step: nat)
    requires |u| == 6 && u[0].shape.Dash() && u[0].Indent() == step && u[3].shape.Dash() && u[3].Indent() == step
    requires forall k | 0 <= k < 6 && k != 0 && k != 3 :: step < u[k].Indent() && !u[k].shape.Dash()
    ensures StepAt(u, 0) == Some(Step(0, 3, step, u[..3])) && StepAt(u, 3) == Some(Step(3, 6, step, u[3..]))
    ensures !IsBlockLines(Shapes(u), step)
  {
    StepEndsAt(u, 1, 3, step);
    StepEndsAt(u, 4, 6, step);
    hide StepEnd;
    assert u[0..3] == u[..3] && u[3..6] == u[3..];
    assert Shapes(u)[3].Ends(step);
  }

  lemma {:induction false} StepEndsAt(u: seq<Line>, i: nat, e: nat, step: nat)
    requires i <= e <= |u| && (forall k | i <= k < e :: !u[k].shape.Ends(step)) && (e < |u| ==> u[e].shape.Ends(step))
    ensures StepEnd(u, i, step) == e
    decreases e - i
  {
    if i < e {
      StepEndsAt(u, i + 1, e, step);
    }
  }

  /** A step without a name line becomes two steps: one that sets the flag and runs nothing, and one that runs the
      runner without the flag. */
  lemma {:induction false} UnnamedStepSplits(step: nat) returns (b: seq<Line>, u: seq<Line>)
    ensures b == [Read(step, PLAIN_ID), Read(step + 2, RUN_PYTEST)] && u == RewriteLines(b, step)
    ensures AllRead(b) && IsBlockLines(Shapes(b), step) && !Cold(Shapes(b)) && !HasName(b) && !StaysHot(b, step)
    ensures u == [NewName(step), EnvLine(step + 2), EnvFlagLine(step + 4), b[0], RunHeader(step + 2),
            RunnerLine(step + 4)]
    ensures StepAt(u, 0) == Some(Step(0, 3, step, u[..3])) && StepAt(u, 3) == Some(Step(3, 6, step, u[3..]))
    ensures !IsBlockLines(Shapes(u), step)
  {
    hide *;
    b := [Read(step, PLAIN_ID), Read(step + 2, RUN_PYTEST)];
    RunPytestRunsPytest();
    PlainIdIsNoName();
    ReadForm(step, PLAIN_ID);
    ReadForm(step + 2, RUN_PYTEST);
    IdRunIf(b, step);
    IdRunIsStep(b, step);
    IdRunRewrites(b, step);
    u := RewriteLines(b, step);
    NewNameForm(step);
    DashForm(b[0]);
    SixLines(u, step, b[0]);
    TwoBlocks(u, step);
  }

  lemma {:induction false} NewNameForm(step: nat)
    ensures NewName(step).shape.Dash() && NewName(step).Indent() == step
  {
    hide Read;
  }

  lemma {:induction false} DashForm(l: Line)
    requires l.shape.kind == Kind.Dash
    ensures l.shape.Dash()
  {
  }

  lemma {:induction false} SixLines(u: seq<Line>, step: nat, l: Line)
    requires u == [NewName(step), EnvLine(step + 2), EnvFlagLine(step + 4), l, RunHeader(step + 2),
             RunnerLine(step + 4)]
    ensures forall k | 0 <= k < 6 && k != 0 && k != 3 :: step < u[k].Indent() && !u[k].shape.Dash()
  {
    hide NewName, Read;
  }

  lemma {:induction false} IdRunIf(b: seq<Line>, step: nat)
    requires |b| == 2 && !Named(b[0].text) && b[0].shape == Shape(step, Kind.Dash, false)
    requires !Named(b[1].text) && b[1].shape == Shape(step + 2, RunKey, true)
    ensures IdRun(b, step)
  {
    hide Named;
  }

  lemma {:induction false} IdRunIsStep(b: seq<Line>, step: nat)
    requires IdRun(b, step) && WellRead(b[0]) && WellRead(b[1])
    ensures AllRead(b) && IsBlockLines(Shapes(b), step) && !Cold(Shapes(b)) && !HasName(b) && !StaysHot(b, step)
  {
    hide Named, WellRead;
    var t := Shapes(b);
    assert InBody(t, 1, 1) && t[1].pytest;
    assert Hot(t, 1);
    assert NextLine(b, 1) == 2;
    assert !Leads(t, 2, step + 2);
  }

  // ---------------------------------------------------------------- a body that is cut

  ghost predicate IdRunNoteRun(b: seq<Line>, step: nat) {
    && |b| == 4 && (forall k | 0 <= k < 4 :: !Named(b[k].text)) && b[0].shape == Shape(step, Kind.Dash, false)
    && b[1].shape == Shape(step + 4, RunKey, true) && b[2].shape == Shape(step + 4, Other, true)
    && b[3].shape == Shape(step + 2, RunKey, true)
  }

  lemma {:induction false} IdRunNoteRunIf(b: seq<Line>, step: nat)
    requires |b| == 4 && !Named(b[0].text) && b[0].shape == Shape(step, Kind.Dash, false)
    requires !Named(b[1].text) && b[1].shape == Shape(step + 4, RunKey, true)
    requires !Named(b[2].text) && b[2].shape == Shape(step + 4, Other, true)
    requires !Named(b[3].text) && b[3].shape == Shape(step + 2, RunKey, true)
    ensures IdRunNoteRun(b, step)
  {
    hide Named;
  }

  lemma {:induction false} NoteIsCut(b: seq<Line>, step: nat)
    requires IdRunNoteRun(b, step)
    ensures IsBlockLines(Shapes(b), step) && LeavesSome(b, step) && !StaysHot(b, step)
  {
    hide Named;
    assert NextLine(b, 1) == 2 && NextLine(b, 2) == 3 && NextLine(b, 3) == 4;
    assert forall k: nat | k < 4 :: !Enclosed(b, k);
    var t := Shapes(b);
    assert Leads(t, 2, step + 2) && !Leads(t, 4, step + 2);
    assert Leaves(b, step, 1);
    assert FlagBefore(b, 2);
    assert !Leads(t[..2], 2, step + 2);
    assert CutOff(b, step, 1);
  }

  /** A step without a name in which the flag, put one line too early, ends the body that would run pytest. */
  lemma {:induction false} FlagCutsBody(step: nat) returns (b: seq<Line>)
    ensures b == [Read(step, PLAIN_ID), Read(step + 4, RUN_PYTEST), Read(step + 4, NOTE_PYTEST),
              Read(step + 2, RUN_PYTEST)]
    ensures AllRead(b) && IsBlockLines(Shapes(b), step) && LeavesSome(b, step) && Cold(Shapes(RewriteLines(b, step)))
  {
    hide *;
    b := [Read(step, PLAIN_ID), Read(step + 4, RUN_PYTEST), Read(step + 4, NOTE_PYTEST), Read(step + 2, RUN_PYTEST)];
    RunPytestRunsPytest();
    NoteRunsPytest();
    NoteIsNoName();
    PlainIdIsNoName();
    ReadForm(step, PLAIN_ID);
    ReadForm(step + 4, RUN_PYTEST);
    ReadForm(step + 4, NOTE_PYTEST);
    ReadForm(step + 2, RUN_PYTEST);
    FourRead(b);
    IdRunNoteRunIf(b, step);
    NoteIsCut(b, step);
    RewrittenIsCold(b, step);
  }

  lemma {:induction false} NoteIsNoName()
    ensures !Named(NOTE_PYTEST)
  {
    assert NOTE_PYTEST[1] == 'o' && "name:"[1] == 'a' && "- name:"[0] == '-';
  }

  lemma {:induction false} FourRead(b: seq<Line>)
    requires |b| == 4 && WellRead(b[0]) && WellRead(b[1]) && WellRead(b[2]) && WellRead(b[3])
    ensures AllRead(b)
  {
    hide WellRead;
  }
}
