/** Choosing the workflow to patch, and what a second run of the patcher finds. */
module WorkflowFinder {
  import opened StepBlocks
  import opened WorkflowLines
  import opened StepRewriter
  import opened RewrittenSteps
  import opened TextPatcher
  import opened WorkflowPatcher
  import opened PlainRuns
  import opened StepLists
  import opened PatchedWorkflows
  import opened PatchResults

  datatype Finding = Selected(index: nat) | AlreadyPatched | NothingToPatch

  /** The text runs the CI runner somewhere: no newline is in the command, so one of its lines holds all of it. */
  predicate MentionsRunner(lines: seq<Line>) {
    exists k | 0 <= k < |lines| :: HasText(lines[k].text, RUNNER_COMMAND)
  }

  /** The first candidate with a pytest step is selected; without one, a runner in any candidate says the patch was
      applied. */
  method FindWorkflow(candidates: seq<seq<Line>>) returns (r: Finding)
    ensures r.Selected? ==> r.index < |candidates| && HasPytestStep(Shapes(candidates[r.index]))
    ensures r.Selected? ==> forall i | 0 <= i < r.index :: !HasPytestStep(Shapes(candidates[i]))
    ensures !r.Selected? ==> forall i | 0 <= i < |candidates| :: !HasPytestStep(Shapes(candidates[i]))
    ensures !r.Selected? ==> (r.AlreadyPatched? <==> exists i | 0 <= i < |candidates| :: MentionsRunner(candidates[i]))
  {
    hide MentionsRunner, HasPytestStep;
    var runnerDetected := false;
    for i := 0 to |candidates|
      invariant forall k | 0 <= k < i :: !HasPytestStep(Shapes(candidates[k]))
      invariant runnerDetected <==> exists k | 0 <= k < i :: MentionsRunner(candidates[k])
    {
      if MentionsRunner(candidates[i]) {
        runnerDetected := true;
      }
      var found := TextContainsPytest(candidates[i]);
      if found {
        return Selected(i);
      }
    }
    return if runnerDetected then AlreadyPatched else NothingToPatch;
  }

  lemma {:induction false} RunnerLineMentions(lines: seq<Line>)
    requires HasLine(lines, RUNNER_COMMAND)
    ensures MentionsRunner(lines)
  {
    hide WellRead;
    var k :| 0 <= k < |lines| && lines[k].text == RUNNER_COMMAND;
    assert RUNNER_COMMAND <= lines[k].text[0..];
    assert HasText(lines[k].text, RUNNER_COMMAND);
  }

  /** The run is one that `CleanRun` speaks of. */
  ghost predicate CleanLog(text: seq<Line>, log: seq<Change>) {
    AllInPlace(log) && (PlainFrom(Shapes(text), 0) || NoneStaysHot(log))
  }

  /** A laid-out workflow in whose way nothing stands. */
  ghost predicate Patchable(text: seq<Line>, newline: nat, rounds: nat) {
    LaidOutInput(text, newline, rounds) && Untroubled(text) && HasPytestStep(Shapes(text))
  }

  /** Patching a workflow and looking for work again. */
  method PatchAndFindAgain(text: seq<Line>, newline: nat, rounds: nat)
    returns (first: Outcome, second: Finding, ghost log: seq<Change>)
    requires AllRead(text)
    ensures Result(first, log) == Run(text, newline, rounds)
    ensures first.Patched? ==> (second.Selected? <==> HasPytestStep(Shapes(first.lines)))
    ensures first.Patched? && CleanLog(text, log) ==> second == AlreadyPatched
    ensures Patchable(text, newline, rounds) ==> first.Patched?
    ensures Patchable(text, newline, rounds) ==>
              (second == AlreadyPatched <==> NoneLingers(Rewritable(text)))
  {
    hide *;
    var patcher := new TextWorkflowPatcher(text, newline);
    first, log := patcher.Patch(rounds);
    second := FindWorkflow([patcher.lines]);
    if Patchable(text, newline, rounds) {
      PatchableRun(text, newline, rounds);
    }
    if first.Patched? && CleanLog(text, log) {
      CleanIsClean(text, newline, rounds);
    }
    if HasLine(patcher.lines, RUNNER_COMMAND) {
      RunnerLineMentions(patcher.lines);
    }
    assert [patcher.lines][0] == patcher.lines;
  }

  lemma {:induction false} CleanIsClean(text: seq<Line>, newline: nat, rounds: nat)
    requires AllRead(text) && CleanLog(text, Run(text, newline, rounds).log)
    requires Run(text, newline, rounds).outcome.Patched?
    ensures var lines := Run(text, newline, rounds).outcome.lines;
            !HasPytestStep(Shapes(lines)) && HasLine(lines, RUNNER_COMMAND)
  {
    hide AllRead, AllInPlace, PlainFrom, NoneStaysHot, HasPytestStep, Run, HasLine;
    CleanRun(text, newline, rounds);
  }

  lemma {:induction false} PatchableRun(text: seq<Line>, newline: nat, rounds: nat)
    requires Patchable(text, newline, rounds)
    ensures var o := Run(text, newline, rounds).outcome;
            && o.Patched?
            && (HasPytestStep(Shapes(o.lines)) <==> !NoneLingers(Rewritable(text)))
            && (NoneLingers(Rewritable(text)) ==> HasLine(o.lines, RUNNER_COMMAND))
  {
    hide LaidOutInput, Untroubled, HasPytestStep, Run, HasLine, NoneLingers, Rewritable;
    hide StepPatched;
    var lines, stands := StepsArePatched(text, newline, rounds);
  }
}
