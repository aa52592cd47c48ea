# CI tooling: patcher, gates and protocols

A Dafny model of the tooling that guards the builds of this repository, with proofs of what that tooling is relied on
for. The modules follow the programs:

- The line-based workflow patcher. A line is its text with the shape the patcher sees in it; a run key is hot when it or
  its body runs pytest.
  - `WorkflowLines`, `StepBlocks`, `StepNames`, `StepRewriter`, `JobMatrix`, `TextPatcher`: its parts, loops proved against
    functions. `RewrittenSteps` says what one rewritten step is.
  - `WorkflowPatcher`: one round and the whole run as functions of the state (`RoundOf`, `Run`), and the class whose methods
    are proved to compute them.
  - `PlainRuns`: any text. A frontier up to which no hot run key is exposed to a scan, which every edit keeps; a run that
    misplaces nothing and leaves no step hot ends, and leaves no pytest step (`CleanRun`).
  - `JobLayouts`, `JobHeaders`, `JobPreparation`, `LaidOutJobs`, `LaidOutRuns`, `SwallowedJobs`, `LineFrames`, `LineOrigins`,
    `SupportNames`, `StepLists`, `StandingSteps`, `PatchedWorkflows`: laid-out texts, in which every pytest step stands in a
    job with one steps key whose header decides about its axis. Job by job the run is followed with the place of each job,
    the origin of each line, the steps still to come, and those already written.
  - `PatchResults`: the results for laid-out texts. `RunEnds` (exactly when the run succeeds, and with which error it fails
    otherwise), `MisplacesExactly`, `JobsArePatched`, `OtherStepsStay`, `StepsArePatched`.
  - `StepTexts`, `AxisTexts`: what the parts make of given texts: which lines run pytest, how names are read and marked,
    where the flag goes, when the install script is up to date, and which axis a job has.
  - `EditPlaces`, `StepExamples`, `WorkflowExamples`: where edits land when they go wrong, and inputs that show it.
  - `WorkflowFinder`: choosing the workflow, and what a second run finds.
- `SupportSteps`, `JobPatcher`: the patcher for parsed workflows, which reorders a list of steps.
- `TextEdits`, `ShellFixer`: edits recorded against a text and applied from the right.
- `TokenBuckets`, `Middlewares`: the token bucket and the chain of rate limit, idempotency and identity checks, with
  claims over whole runs.
- `SummaryGate`, `ScoreEngines`: the two scores of a build.
- `SummaryText`, `SummaryReaders`, `JwtSegments`, `RedisCommands`, `ImportRewriting`, with `Decimals` and `PyStrings`: printers and parsers.
- `BoundedBuffers`, `Percentile`, `Retries`: three loops with exact specifications.

Where the code does less than it is meant to, the model keeps the code as it is. The cases found:

- A rewritten step can still run pytest, as the search sees it: if a variable called `run` stands in an `env` mapping that
  is copied, or if the run key written for one takes in a deeper line that follows (`RunUnderEnvSurvives`,
  `DeepRunSurvives`). These two cases, unless the flag is put where it ends the body in question (`FlagCutsBody`), are the
  exact condition, `StaysHot` (`RewrittenIsCold`), and a laid-out workflow that is patched runs pytest exactly if one of the
  steps rewritten meets it (`StepsArePatched`).
- A step without a name line becomes two steps, one with the flag that runs nothing and one with the runner and without the
  flag (`UnnamedStepSplits`). A rewritten step is one step exactly if it had a name (`RewrittenIsStep`).
- A job whose only pytest run is the script of its outdated install step is refused, because that script is replaced before
  the step is looked for again (`SwallowedJobFails`; `RunEnds` says exactly when). If pytest steps follow the job, the next
  one is rewritten instead, before its own job is prepared (`RoundSwallowedOn`).
- The support steps are inserted where the pytest step was found, although the install script before it may have been
  replaced by one of another length (`Misplaces`). Where they land is stated in `SupportLands`; in the workflow of
  `StaleJobStrays` they land inside the install script and take it over.
- A job whose steps key is more than two columns deeper than its own key loses that key to the line written for its
  strategy or matrix, and is found to lack its axis again (`DeepJobLacksAxisAgain`).
- The parsed-document patcher leaves pytest steps behind in one pass exactly when a support step has to be taken from
  before the first of them, or the select step itself runs pytest (`OnePassSuffices`).
- An insertion recorded before a replacement at the same place is lost (`InsertThenReplace`).
- Import rewriting with the conversion of relative imports is not always settled after one pass (`ConvertedIdempotent`,
  with `NestedSourceUnsettled` and `DisplacedUnsettled` for its two cases).
- A flush over a connection that is closed too early is reported as a success (`PerformFlush` says exactly when every
  command was answered; `ClosedAfterAuth`).

The source calls the package directory by a name that is not defined in two places of `tools/refactor_imports.py`; the
model reads it as the source directory.

To check the project: `dafny verify dfyconfig.toml`.

## Model

| member | source | states |
|---|---|---|
| WorkflowLines.RunnerCommandIsQuiet | tools/gha_workflow_patcher.py:13-22 | The runner command, although it names ci_pytest_runner.py, is not taken for a line that runs pytest, so a step that holds it is not found again |
| WorkflowLines.InstallScriptIsQuiet | tools/gha_workflow_patcher.py:26-31 | No command of the install script is taken for a line that runs pytest, although one of them installs pytest |
| StepNames.AppendSuffixOnce | tools/gha_workflow_patcher.py:158-206 | Marking a name line twice is marking it once, whatever quotes, anchor or comment it carries |
| StepNames.AppendSuffixKeepsKey | tools/gha_workflow_patcher.py:158-206 | Marking leaves the first five characters of the line, and so its key, as they were |
| StepNames.SuffixKeepsPytest | tools/gha_workflow_patcher.py:158-206 | Marking a line never changes whether it counts as running pytest |
| StepTexts.KindsOfLines | tools/gha_workflow_patcher.py:720-740 | The key or the dash at the start of a text decides what the line is taken for |
| StepTexts.WordRuns | tools/gha_workflow_patcher.py:214-222 | A line with the word pytest, in small or capital letters and with no word character next to it, runs pytest unless it installs packages |
| StepTexts.OtherWord | tools/gha_workflow_patcher.py:214-222 | Next to a letter, a digit or an underscore it is another word |
| StepTexts.InstallerIsQuiet | tools/gha_workflow_patcher.py:218-221 | A line with pip install, pip3 install or pipenv install does not run pytest |
| PyStrings.LowerIs | tools/gha_workflow_patcher.py:215-215 | The capital letters of ASCII have their small ones, and every other character stays |
| PyStrings.SpacesAre | tools/gha_workflow_patcher.py:693-693 | Which characters of ASCII are white space |
| StepTexts.HotExactly | tools/gha_workflow_patcher.py:232-245 | A run key runs pytest if it, or a line of its body up to the next run key or line no deeper, does |
| StepTexts.NameIsMarked | tools/gha_workflow_patcher.py:158-206 | For every name, bare or in quotes, with spaces, anchor or comment behind it, the suffix is put behind the name and inside its quotes, unless the name ends with it, and nothing else on the line changes |
| StepTexts.EndsExactly | tools/gha_workflow_patcher.py:194-203 | A name counts as marked exactly if it is something followed by the suffix |
| StepTexts.OtherLineUnmarked | tools/gha_workflow_patcher.py:163-165 | A line that is no name line stays as it is |
| StepTexts.NameReads | tools/gha_workflow_patcher.py:689-702 | For the same lines, the name read is the bare one, without quotes, anchor and comment |
| SupportNames.NameLineNames | tools/gha_workflow_patcher.py:689-702 | A written name line is read back as the name, for every name without comment sign, anchor sign and quotes |
| TextPatcher.ContainsPytest | tools/gha_workflow_patcher.py:232-245 | Returns true exactly if some run key, or a line of its body, runs pytest |
| TextPatcher.NextPytestStep | tools/gha_workflow_patcher.py:346-380 | Returns the first step block at or after a line that runs pytest, or nothing exactly when no pytest step is exposed to a scan from there |
| StepTexts.StepExtends | tools/gha_workflow_patcher.py:362-380 | A step goes on over blank lines, deeper ones, and those as deep that start with no dash |
| TextPatcher.BlockEnd | tools/gha_workflow_patcher.py:262-273 | The second reader cuts out the same kind of block: up to the first line that ends it |
| TextPatcher.TextContainsPytest | tools/gha_workflow_patcher.py:255-280 | The selection check, which scans on its own, answers true exactly if the text has a pytest step |
| TextPatcher.LocateJobBounds | tools/gha_workflow_patcher.py:395-422 | The job of a line is the nearest steps key above it, the nearest shallower key above that, and all that is deeper below it; an error exactly if there is none |
| StepTexts.JobKeyExactly | tools/gha_workflow_patcher.py:407-412 | The key of a job is less deep than the steps key, ends with a colon and starts with no dash |
| StepTexts.JobSpans | tools/gha_workflow_patcher.py:395-422 | The job of a line has the nearest steps key at or above it and the nearest job key above that, and goes on over blank lines and those deeper than its key |
| TextPatcher.CollectStepNames | tools/gha_workflow_patcher.py:533-546 | The names collected are those of the steps the scan of the job meets |
| TextPatcher.FindStepBlock | tools/gha_workflow_patcher.py:557-571 | Finds the first step of the job whose normalised name is the one looked for |
| StepTexts.FirstNameCounts | tools/gha_workflow_patcher.py:689-702 | The name of a step is that of its first name line |
| StepTexts.NamesMet | tools/gha_workflow_patcher.py:533-546 | The names collected are exactly those of the steps that the scan meets, apart from empty ones |
| StepTexts.FirstNamedMet | tools/gha_workflow_patcher.py:557-571 | The step found for a name is the first one met that has it |
| TextPatcher.FindOutdated | tools/gha_workflow_patcher.py:573-607 | Finds the run key and the end of its body exactly when header or commands differ from the install script |
| TextPatcher.OutdatedExtent | tools/gha_workflow_patcher.py:573-596 | The stretch to be replaced is a run key with all its deeper lines, also as seen in the whole text |
| StepTexts.InstallCommands | tools/gha_workflow_patcher.py:24-33 | The four commands of the install script |
| StepTexts.RunnerAndNames | tools/gha_workflow_patcher.py:13-27 | The runner command, the select script, the names of the support steps, and the suffix |
| StepTexts.UpToDateExactly | tools/gha_workflow_patcher.py:573-605 | The install step is up to date exactly if the header of its run key is the plain block header and its script consists of the commands, one on each line; otherwise the whole script is replaced |
| StepTexts.NothingOutdated | tools/gha_workflow_patcher.py:583-584 | A step without a run key has no script to replace |
| TextPatcher.RefreshingRefreshes | tools/gha_workflow_patcher.py:586-612 | A refreshed install step has a run key at the same depth, four quiet script lines, and all other lines as before |
| TextPatcher.MissingStepsAreSteps | tools/gha_workflow_patcher.py:615-632 | The support steps written are steps at the given depth that do not run pytest |
| StepTexts.BlocksAre | tools/gha_workflow_patcher.py:607-632 | The support steps line by line, and the install script that replaces an outdated one |
| StepTexts.LackingAre | tools/gha_workflow_patcher.py:634-646 | Exactly the support steps whose names are not there are lacking, the install step first |
| StepBlocks.FirstBlockStaysClean | tools/gha_workflow_patcher.py:304-310 | Moving from a clean place to the next pytest step found passes no pytest step |
| StepBlocks.NothingLeft | tools/gha_workflow_patcher.py:309-311 | When the text is clean up to the place where the search found nothing more, it has no pytest step at all |
| StepBlocks.InsertKeepsFrontier | tools/gha_workflow_patcher.py:495-524 | Inserting matrix lines anywhere leaves what was dealt with free of pytest steps |
| StepBlocks.RefreshKeepsFrontier | tools/gha_workflow_patcher.py:607-613 | Replacing an install script anywhere leaves what was dealt with free of pytest steps |
| StepBlocks.ReplaceStaysClean | tools/gha_workflow_patcher.py:334-338 | Replacing the step at the frontier by one that does not run pytest leaves everything up to its end free of pytest steps, also for run keys before it |
| StepBlocks.InsertHots | tools/gha_workflow_patcher.py:495-524 | Inserting quiet lines never adds to the pytest runs still ahead, the measure by which the run ends |
| StepBlocks.RefreshHots | tools/gha_workflow_patcher.py:607-613 | Refreshing an install script never adds to the pytest runs still ahead |
| JobMatrix.FindAxis | tools/gha_workflow_patcher.py:424-458 | The scan for strategy, matrix and mode keys stops where the indentation says and finds what the recursive scan finds |
| JobMatrix.EnsureMatrix | tools/gha_workflow_patcher.py:424-524 | Decides between an existing axis, a conflict, and at most three quiet lines to insert inside the job |
| JobMatrix.AxisEnsuredOnce | tools/gha_workflow_patcher.py:424-524 | After the lines are inserted the axis is found with the wanted modes: ensuring it again inserts nothing and raises no conflict |
| AxisTexts.ListReads | tools/gha_workflow_patcher.py:460-473 | The modes of a list below the key are its items without blanks and quotes, whatever blank or other deeper lines stand between them, up to the first line that is no deeper |
| AxisTexts.InlineReads | tools/gha_workflow_patcher.py:478-481 | The modes on the line of the key are its items without brackets, blanks and quotes |
| AxisTexts.ListedAxis | tools/gha_workflow_patcher.py:457-488 | A job with a listed axis conflicts unless its items are stub and redis, in this order |
| AxisTexts.InlineAxis | tools/gha_workflow_patcher.py:457-488 | The same for an axis on the line of its key |
| AxisTexts.StrategyIsAdded | tools/gha_workflow_patcher.py:490-505 | Without a strategy, all three keys are put right before the first steps key, or else behind the key of the job |
| AxisTexts.MatrixIsAdded | tools/gha_workflow_patcher.py:506-517 | A strategy without a matrix gets both other keys right behind it |
| AxisTexts.ModeIsAdded | tools/gha_workflow_patcher.py:519-524 | A matrix without the axis gets it right behind its key |
| StepRewriter.RewriteBody | tools/gha_workflow_patcher.py:704-758 | The loop over the step's lines produces the draft of the recursive rewriter, with the origin of every line |
| StepRewriter.EnsureEnvBlock | tools/gha_workflow_patcher.py:765-812 | Inserts the flag line at the end of the first env mapping, or a new mapping before the last run key, or nothing if the flag is there |
| StepTexts.FlagOnLine | tools/gha_workflow_patcher.py:799-801 | A line holds the flag if its name stands anywhere on it |
| StepTexts.EnvIsAdded | tools/gha_workflow_patcher.py:777-787 | A step without an env key gets one with the flag, at the place of the run key or else at the end |
| StepTexts.FlagIsAdded | tools/gha_workflow_patcher.py:789-808 | To an env mapping without the flag it is added at the end; only the first env key of the step counts |
| StepTexts.FlagIsKept | tools/gha_workflow_patcher.py:799-811 | A mapping that holds the flag, whatever its value, stays as it is |
| StepRewriter.RewriteStep | tools/gha_workflow_patcher.py:704-763 | A step block is replaced by the rewritten lines, named if it had no name |
| StepTexts.NamedExactly | tools/gha_workflow_patcher.py:713-713 | Which lines count as name lines when a step is rewritten |
| StepTexts.PlainStepIsRewritten | tools/gha_workflow_patcher.py:704-787 | Of a step with a name and one run key, and without variables, the name is marked, the script replaced by the runner, and the flag set in front of it; every other line stays |
| RewrittenSteps.ReadsExactlyOwn | tools/gha_workflow_patcher.py:704-758 | The rewriter looks by itself at exactly the lines that belong to no env mapping and to no run key |
| RewrittenSteps.RewrittenIsStep | tools/gha_workflow_patcher.py:704-812 | A rewritten step starts with a dash at the same depth and sets the flag in an env mapping; it is one step exactly if it had a name line of its own |
| RewrittenSteps.RewrittenIsCold | tools/gha_workflow_patcher.py:704-812 | A rewritten step runs pytest exactly if a key leaves a pytest run behind, either a run key copied with its env mapping or a deeper pytest line taken in by the replacement of a run key, and the flag, in a step without name and mapping, is not put in between |
| RewrittenSteps.RewrittenRunsRunner | tools/gha_workflow_patcher.py:741-758 | A rewritten step with a run key of its own holds the runner command, and a pytest step that leaves nothing behind has such a key |
| RewrittenSteps.PlainLeavesNothing | tools/gha_workflow_patcher.py:704-812 | A step whose run keys are outside env mappings and at most two columns deeper than the dash leaves nothing behind |
| RewrittenSteps.RewrittenKeepsLines | tools/gha_workflow_patcher.py:704-812 | Every line outside the run keys of the step survives in order, and only a name line changes, by the suffix; the others are lines of the patcher's own and open no steps |
| StepExamples.RunUnderEnvSurvives | tools/gha_workflow_patcher.py:720-737 | A concrete step with a variable called run in its env mapping still runs pytest, as the search sees it, after being rewritten |
| StepExamples.DeepRunSurvives | tools/gha_workflow_patcher.py:738-758 | A concrete step with a run key four columns deep still runs pytest, as the search sees it, after being rewritten |
| StepExamples.UnnamedStepSplits | tools/gha_workflow_patcher.py:759-763 | A concrete step without a name line becomes two steps: the first has the flag and runs nothing, the second runs the runner without the flag |
| RewrittenSteps.HotIsCovered | tools/gha_workflow_patcher.py:255-280 | A run key of a rewritten step that runs pytest is seen by the search, also when the step became two |
| StepExamples.FlagCutsBody | tools/gha_workflow_patcher.py:759-776 | In a concrete step without a name the flag, put one line too early, ends a body that would otherwise run pytest |
| WorkflowPatcher.TextWorkflowPatcher.constructor | tools/gha_workflow_patcher.py:284-297 | The patcher starts with the lines as read and a valid offset cache |
| WorkflowPatcher.TextWorkflowPatcher.RebuildOffsets | tools/gha_workflow_patcher.py:667-676 | Rebuilding makes the cache the offsets of the current lines |
| WorkflowPatcher.TextWorkflowPatcher.ByteOffset | tools/gha_workflow_patcher.py:678-686 | Whatever was spliced before, an offset is the sum of the lengths of the lines before it with their newlines, also past the end |
| WorkflowPatcher.OffsetIsLength | tools/gha_workflow_patcher.py:663-686 | An offset is the number of characters before the line in the file; behind the text every line counts as empty |
| WorkflowPatcher.TextWorkflowPatcher.SpliceLines | tools/gha_workflow_patcher.py:660-661 | Every splice replaces exactly the given lines and invalidates the cache |
| WorkflowPatcher.TextWorkflowPatcher.JobKeyOf | tools/gha_workflow_patcher.py:383-393 | The key of a job is fixed when its first line is first met, from the offsets at that time |
| WorkflowPatcher.TextWorkflowPatcher.RefreshInstallStep | tools/gha_workflow_patcher.py:639-642 | The job's install step is refreshed exactly if it is named, found and outdated, and nothing else changes |
| WorkflowPatcher.TextWorkflowPatcher.GiveAxis | tools/gha_workflow_patcher.py:487-524 | The job is given its axis in place, or nothing changes because it has another one |
| WorkflowPatcher.TextWorkflowPatcher.EnsureSupportSteps | tools/gha_workflow_patcher.py:634-658 | Refreshes the install step, inserts what the job of the step lacks where the step was recorded, and says where to look for the step |
| WorkflowPatcher.MisplacesIs | tools/gha_workflow_patcher.py:634-658 | Support steps are misplaced exactly if some are lacking and a refresh before the step changes the length of the text |
| WorkflowPatcher.TextWorkflowPatcher.FindAgain | tools/gha_workflow_patcher.py:324-326 | The step at the new place if it runs pytest, or else the first one from the start of the job |
| WorkflowPatcher.TextWorkflowPatcher.Prepare | tools/gha_workflow_patcher.py:311-332 | The axis and the support steps are each ensured unless that was done for the key of the job; the result is the prepared text and the step to rewrite, or the error |
| WorkflowPatcher.TextWorkflowPatcher.ReplaceStep | tools/gha_workflow_patcher.py:334-338 | The step is replaced by its rewritten lines, and the search goes on right behind them |
| WorkflowPatcher.TextWorkflowPatcher.OneRound | tools/gha_workflow_patcher.py:304-338 | One turn of the loop is one round: the next pytest step, its job prepared once, the step rewritten |
| WorkflowPatcher.TextWorkflowPatcher.Patch | tools/gha_workflow_patcher.py:299-344 | Outcome and record of what was done are those of the run, of which the results below speak, for any text and as many rounds as are given |
| PlainRuns.CleanRun | tools/gha_workflow_patcher.py:299-344 | If every support step is inserted in place and no rewritten step stays hot, as in a text with run keys outside env mappings and at most two columns deeper than their dash, a finished run leaves no pytest step and mentions the runner, and as many rounds as the text has hot run keys are enough |
| JobHeaders.AxisGiven | tools/gha_workflow_patcher.py:424-524 | A job whose header decides about its axis stays a job with the same key after it was given the axis, and its header then holds it |
| JobHeaders.SetIsExisting | tools/gha_workflow_patcher.py:424-486 | An axis in the header is found again: nothing is to be inserted and nothing conflicts |
| JobPreparation.AxisReaches | tools/gha_workflow_patcher.py:311-320 | After a laid-out job was given its axis, the search finds the same step and its job with the bounds moved by the lines inserted |
| JobPreparation.SupportReaches | tools/gha_workflow_patcher.py:321-332 | After the support steps were ensured in place, the search finds the first pytest step of the job that was not refreshed away |
| SupportNames.SupportIsHeld | tools/gha_workflow_patcher.py:634-658 | After the support steps were ensured in place, the job has a step with each of their names before the frontier, or one that does not run pytest |
| LaidOutRuns.RoundFine | tools/gha_workflow_patcher.py:304-338 | A round on a new job with nothing in its way ensures axis and support steps in place, rewrites its first pytest step, and leaves every earlier job as it was |
| LaidOutRuns.RoundInJob | tools/gha_workflow_patcher.py:304-338 | A round on the last job dealt with does nothing but rewrite its next pytest step |
| LaidOutRuns.RoundConflict | tools/gha_workflow_patcher.py:487-494 | A job with another axis ends the run with the conflict |
| SwallowedJobs.RoundSwallowed | tools/gha_workflow_patcher.py:322-331 | A job whose pytest runs are all in its outdated install script, with no pytest step behind it, ends the run without an anchor |
| SwallowedJobs.RoundSwallowedOn | tools/gha_workflow_patcher.py:322-338 | If pytest steps follow such a job, the round rewrites one of a later job, which was given neither axis nor support steps |
| LineOrigins.MappedReady | tools/gha_workflow_patcher.py:311-333 | Preparing a job keeps the order-preserving map from the lines of the current text to those of the first one, which misses and changes only what may go and may be marked |
| StepLists.StepsReady | tools/gha_workflow_patcher.py:311-333 | Preparing a job leaves the steps that will be rewritten, those that still run pytest after install scripts were replaced, as they are and in order, and reaches the first of them |
| PatchResults.RunEnds | tools/gha_workflow_patcher.py:299-344 | A laid-out workflow that misplaces nothing is patched exactly if some step runs pytest, no job with one has another axis, and none is swallowed; it is refused for the axis exactly if some such job has another one, and for a missing anchor exactly if no step runs pytest or, without another axis, a job is swallowed |
| PatchResults.OtherListedAxis | tools/gha_workflow_patcher.py:457-488 | A job whose axis is a list has another axis exactly if its items are not stub and redis |
| PatchResults.OtherInlineAxis | tools/gha_workflow_patcher.py:457-488 | The same for an axis on the line of its key |
| PatchResults.NoStrategyNoAxis | tools/gha_workflow_patcher.py:490-505 | A job without a strategy has no other axis |
| PatchResults.MisplacesExactly | tools/gha_workflow_patcher.py:634-658 | A laid-out workflow that is patched has support steps misplaced exactly if one of its jobs misplaces them |
| PatchResults.JobsArePatched | tools/gha_workflow_patcher.py:299-344 | A patched laid-out workflow keeps the lines of the text in order: only run texts inside steps that run pytest and install scripts that are replaced may go, only name lines inside steps that run pytest change, by the suffix, and what is added are lines of the patcher's own, inside the jobs that hold such steps; each of these jobs is still there from the same line, has the wanted axis, lacks no support step, and was given each of them once, in order |
| PatchResults.OtherStepsStay | tools/gha_workflow_patcher.py:299-344 | In a patched laid-out workflow every line of a step that runs no pytest, and every line outside the steps, stands unchanged and in order, apart from install scripts that are replaced |
| PatchResults.StepsArePatched | tools/gha_workflow_patcher.py:299-344 | The steps that are rewritten are exactly the pytest steps of the text that still run pytest with their new install scripts, each once and in order (just the pytest steps if no replaced install step is one), and each stands in the patched text with flag and runner, as one step exactly if it had a name; the patched text runs no pytest exactly if none of them stays hot |
| EditPlaces.SupportLands | tools/gha_workflow_patcher.py:634-658 | Behind a refreshed install step the support steps land in front of the pytest step exactly if the script keeps its length; otherwise between which lines they land |
| EditPlaces.AxisKeepsKey | tools/gha_workflow_patcher.py:395-422 | After a job was given its axis, its key is found again exactly if no line written is taken for one |
| EditPlaces.DeepJobLacksAxisAgain | tools/gha_workflow_patcher.py:395-524 | A job without a strategy keeps its key exactly if its steps key is at most two columns deeper; otherwise another key is found, for which the axis is missing again |
| WorkflowExamples.SimpleJobIsPatched | tools/gha_workflow_patcher.py:299-344 | A concrete job with its axis and one plain step meets every condition of the results for laid-out workflows, is patched, and runs no pytest any more |
| WorkflowExamples.SwallowedJobFails | tools/gha_workflow_patcher.py:322-331 | A concrete plain job with both support steps, whose only pytest run is its install script, is refused for a missing anchor |
| WorkflowExamples.StaleJobStrays | tools/gha_workflow_patcher.py:634-658 | A concrete job with a one-line install script and no select step: the run ends patched, with an empty install script and its commands inside the select step |
| WorkflowFinder.FindWorkflow | tools/gha_workflow_patcher.py:72-109 | The first candidate with a pytest step is selected; without one, the workflow counts as patched exactly if some candidate mentions the runner |
| WorkflowFinder.PatchAndFindAgain | tools/gha_workflow_patcher.py:88-104 | Patching a laid-out workflow with nothing in its way succeeds, and looking again says that it was patched already exactly if none of the steps rewritten stays hot; after a clean run of any workflow it says so too |
| SupportSteps.Occurrences | tools/gha_workflow_patcher.py:911-917 | The scan lists the indices of the install and select steps in order, the target apart |
| SupportSteps.SupportByName | tools/gha_workflow_patcher.py:987-995 | A step is a support step exactly if its name is one of the two, up to blanks around it and quotes |
| SupportSteps.RefreshKeeps | tools/gha_workflow_patcher.py:997-1006 | A refreshed install step keeps its variables, and has the name and the script of a new one |
| SupportSteps.TestsMeanInPlace | tools/gha_workflow_patcher.py:924-945 | The four tests of the code together say exactly that the support steps stand right before the target and nowhere else |
| SupportSteps.DropSupport | tools/gha_workflow_patcher.py:961-966 | Popping from the end removes exactly the support steps, and the adjusted index is that of the target |
| SupportSteps.Rearrange | tools/gha_workflow_patcher.py:947-969 | The list becomes the other steps before the target, install, select, the target, the other steps after it |
| SupportSteps.RearrangedExactly | tools/gha_workflow_patcher.py:951-972 | The first step of each kind, or a new one, is put right before the target, the install step first; their repeats go, and everything else stays in order |
| SupportSteps.NonSupportHolds | tools/gha_workflow_patcher.py:961-966 | No support step remains elsewhere, and every other step does |
| SupportSteps.TargetLands | tools/gha_workflow_patcher.py:961-974 | The target ends up at its old index plus two less the number of support steps that stood before it |
| SupportSteps.ArrangedOnce | tools/gha_workflow_patcher.py:906-985 | At that index the support steps are in place, and ensuring them again changes nothing |
| JobPatcher.Job.constructor | tools/gha_workflow_patcher.py:816-822 | A job starts with the given steps and strategy |
| JobPatcher.Job.EnsureMatrix | tools/gha_workflow_patcher.py:877-904 | Succeeds exactly if strategy and matrix are well formed and no other mode axis exists, and then the axis is the wanted one |
| JobPatcher.Job.EnsureSupportSteps | tools/gha_workflow_patcher.py:906-985 | The list becomes the arranged one; the result is zero exactly if it already was in place |
| JobPatcher.Job.RewriteStep | tools/gha_workflow_patcher.py:1061-1087 | Only the step itself changes: it runs the runner, keeps every variable it had next to the flag and gets no other, and its name is the old one marked once, or the new name if it had none |
| JobPatcher.Job.Patch | tools/gha_workflow_patcher.py:837-863 | The walk over the growing list ends; it changes nothing without a pytest step or on a conflict, and otherwise leaves the list of one pass |
| JobPatcher.PatchDocument | tools/gha_workflow_patcher.py:824-869 | The loop over the jobs: nothing found exactly if no step runs pytest, refused exactly if some job with a pytest step cannot be given the axis; every job before a refusal had its pass and none behind it is touched |
| JobPatcher.WrittenStepsAreQuiet | tools/gha_workflow_patcher.py:124-151 | New, refreshed and rewritten steps do not run pytest |
| JobPatcher.ScriptByLines | tools/gha_workflow_patcher.py:871-875 | A script runs pytest exactly if one of its lines does |
| JobPatcher.ConflictingExactly | tools/gha_workflow_patcher.py:877-904 | The axis can be given exactly to a job without strategy, matrix or mode, or with the modes stub and redis |
| JobPatcher.OnePassSuffices | tools/gha_workflow_patcher.py:842-864 | After one pass no step runs pytest exactly if the support steps were in place, or none stood before the first pytest step and the select step does not run pytest itself |
| JobPatcher.PytestStepsAreRewritten | tools/gha_workflow_patcher.py:842-864 | When no support step has to be taken from before the first pytest step, every pytest step but the support steps is rewritten in that pass |
| JobPatcher.RewrittenIsNoSupport | tools/gha_workflow_patcher.py:1061-1070 | A marked step never counts as a support step, whatever its name was |
| JobPatcher.SecondPassSuffices | tools/gha_workflow_patcher.py:842-864 | When the select step does not run pytest, two passes always leave no pytest step |
| JobPatcher.SelectBeforeTarget | tools/gha_workflow_patcher.py:857-861 | A concrete job whose only pytest step one pass leaves alone: a select step stands before it |
| JobPatcher.SelectRunsPytest | tools/gha_workflow_patcher.py:947-969 | A concrete job with no support step before the first pytest step where one pass leaves a moved select step that runs pytest |
| TextEdits.SortedDescending | tools/migrate_artifacts_v3_to_v4.py:78-80 | Changes are applied by start, the last one first, and all of them |
| TextEdits.SortIsStable | tools/migrate_artifacts_v3_to_v4.py:78-80 | Changes with the same start are applied in the order in which they were recorded |
| TextEdits.ApplyIsSplice | tools/migrate_artifacts_v3_to_v4.py:78-82 | Right-to-left application of a chain of changes is the one-pass splice of the original text |
| TextEdits.CompatibleIsChained | tools/migrate_artifacts_v3_to_v4.py:78-82 | Changes in any recorded order form such a chain exactly if each later one keeps clear of the earlier ones, and at an equal start only inserts |
| TextEdits.DisjointFits | tools/migrate_artifacts_v3_to_v4.py:78-82 | Pairwise disjoint changes with distinct starts satisfy that condition |
| TextEdits.RecordingOrderIsIrrelevant | tools/migrate_artifacts_v3_to_v4.py:78-82 | With distinct starts the order of recording makes no difference |
| TextEdits.InsertThenReplace | tools/migrate_artifacts_v3_to_v4.py:78-82 | An insertion recorded before a replacement at the same place is lost and a replaced character survives; the other order works |
| TextEdits.TextEditor.constructor | tools/migrate_artifacts_v3_to_v4.py:60-62 | An editor starts without changes |
| TextEdits.TextEditor.ReplaceSegment | tools/migrate_artifacts_v3_to_v4.py:68-73 | Records the change at the end, unless it would do nothing |
| TextEdits.TextEditor.Insert | tools/migrate_artifacts_v3_to_v4.py:75-76 | Records an insertion, unless it is empty |
| TextEdits.TextEditor.Apply | tools/migrate_artifacts_v3_to_v4.py:78-82 | The loop applies the sorted changes, and for compatible changes within the text the result is the simultaneous splice |
| TextEdits.EditedLength | tools/migrate_artifacts_v3_to_v4.py:78-82 | The result is as long as the original plus what the recorded changes add |
| TextEdits.SpliceEffect | tools/migrate_artifacts_v3_to_v4.py:78-82 | Every untouched gap stands unchanged where the growth of the changes before it moves it, with the new text right behind it |
| ShellFixer.LineOffsets | scripts/bandit_fixer.py:133-136 | The offset table holds the offset at which each line starts |
| ShellFixer.PlaceInText | scripts/bandit_fixer.py:188-189 | A line and column name the character at the line's offset plus the column |
| ShellFixer.OffsetsOrdered | scripts/bandit_fixer.py:188-189 | Places that follow each other have offsets that do, strictly when a call stands between them |
| ShellFixer.Visit | scripts/bandit_fixer.py:141-193 | The visitor turns lines and columns into offsets and collects the outermost calls that have a fix; it does not look inside a call |
| ShellFixer.CollectedApart | scripts/bandit_fixer.py:141-193 | What it collects lies inside the tree and is pairwise disjoint, whatever the order of the children |
| ShellFixer.CollectedCalls | scripts/bandit_fixer.py:141-193 | The edits collected are, one for one, the replacements of the calls with a fix that are reached from the root by child indices through nodes that are no calls |
| ShellFixer.FixCalls | scripts/bandit_fixer.py:193-198 | The fixed text is the simultaneous replacement of exactly the calls with a fix that stand in no other call, one edit for each |
| TokenBuckets.RateLimiter.constructor | automation_audit/ratelimit.py:17-21 | A limiter starts with an empty store |
| TokenBuckets.RateLimiter.Allow | automation_audit/ratelimit.py:26-45 | Accepts exactly if the refilled bucket holds a token; writes the bucket only then |
| TokenBuckets.RateLimiter.Clear | automation_audit/ratelimit.py:47-50 | Removes every bucket of the namespace and nothing else |
| TokenBuckets.RateLimiter.ServeAll | automation_audit/ratelimit.py:26-45 | Serving requests in turn yields the decisions and the store of the run |
| TokenBuckets.AcceptanceBound | automation_audit/ratelimit.py:38-45 | In any run, on any clock and with other tokens in between, the acceptances of a token between two of its acceptances number at most the capacity plus the refill of that time |
| TokenBuckets.AcceptedForCounts | automation_audit/ratelimit.py:38-45 | The acceptances in that bound are the number of requests for the token that were accepted |
| TokenBuckets.NewToken | automation_audit/ratelimit.py:30-44 | A token that was never served has what was refilled since time zero, up to the capacity |
| TokenBuckets.StaysInRange | automation_audit/ratelimit.py:38-45 | Stored tokens stay between zero and the capacity less one |
| TokenBuckets.Recovers | automation_audit/ratelimit.py:38-45 | A bucket admits its token again once one token was refilled |
| TokenBuckets.LazyIsEager | automation_audit/ratelimit.py:38-45 | Writing nothing on a rejection decides every request of every run as a bucket that stores each refill |
| Middlewares.IdempotencyStore.constructor | tools/refactor_imports.py:214-217 | A store starts empty |
| Middlewares.IdempotencyStore.Clear | tools/refactor_imports.py:222-223 | Clearing forgets every reservation |
| Middlewares.IdempotencyStore.Cleanup | tools/refactor_imports.py:225-229 | Keeps exactly the reservations that are not over |
| Middlewares.IdempotencyStore.CheckAndSet | tools/refactor_imports.py:231-244 | Refuses exactly a call that is no GET on a reserved key; a live reservation is never overwritten, any other key is reserved for a day |
| Middlewares.RateLimitMiddleware.constructor | tools/refactor_imports.py:200-203 | The limit is clamped between 1 and 300 |
| Middlewares.RateLimitMiddleware.Admit | tools/refactor_imports.py:205-211 | Admits and counts exactly while the count is below the limit |
| Middlewares.MiddlewareChain.constructor | tools/refactor_imports.py:271-275 | A chain starts with nothing counted and nothing reserved |
| Middlewares.MiddlewareChain.Execute | tools/refactor_imports.py:277-278 | Handled only with the identity cli; refused by the limit, as a duplicate, or for its identity exactly as the count, the reservations and the identity of the request say; the trace is a prefix of rate limit, idempotency, auth, as long as the outcome says |
| Middlewares.MiddlewareChain.ExecuteAll | tools/refactor_imports.py:277-278 | Executing requests in turn yields the outcomes and the state of the run, and none with another identity than cli is handled |
| Middlewares.HandledWithinLimit | tools/refactor_imports.py:200-211 | In any run the handler runs at most as often as requests were admitted, and those are at most the limit |
| Middlewares.TimesHandledIs | tools/refactor_imports.py:200-211 | The number in that bound counts the handled requests |
| Middlewares.StoreRefinesHistory | tools/refactor_imports.py:225-244 | On a clock that never goes back, the store holds exactly the reservations of the history that are less than a day old |
| Middlewares.DuplicateExactly | tools/refactor_imports.py:231-244 | An admitted request is turned away as a duplicate exactly if it is no GET and its key was reserved less than a day ago |
| Middlewares.IdentityDecides | tools/refactor_imports.py:262-268 | In any run on a clock that never goes back, an admitted request that is no duplicate is handled exactly if its identity is cli, and refused for its identity exactly otherwise |
| Middlewares.GetExactly | tools/refactor_imports.py:236-241 | Exactly the word get, in any case, is a GET |
| Middlewares.KeyTells | tools/refactor_imports.py:253-254 | Two requests compete for a key exactly if namespace, action and request id agree, when the first two hold no colon |
| Middlewares.HandledADayApart | tools/refactor_imports.py:231-259 | Two handler runs for requests with the same key that are no GET are at least 24 hours apart |
| Middlewares.ReservationsBlock | tools/refactor_imports.py:231-259 | A reservation made by a GET, or by a request whose identity is refused later, also blocks |
| SummaryGate.StageResult.constructor | ci/pytest_summary_gate.py:84-94 | A stage result starts without violations |
| SummaryGate.StageResult.ApplyStageGates | ci/pytest_summary_gate.py:333-354 | Appends the violations that exit code and counts call for, in order |
| SummaryGate.NothingRaised | ci/pytest_summary_gate.py:333-354 | Nothing is appended exactly for exit code zero, a passed test, and no failed, skipped, xfailed, xpassed tests or warnings |
| SummaryGate.RaisedExactly | ci/pytest_summary_gate.py:333-354 | Every violation is raised exactly for its counts |
| SummaryGate.AggregateCounts | ci/pytest_summary_gate.py:478-492 | The aggregate is the sum over the stages |
| SummaryGate.TotalsVanish | ci/pytest_summary_gate.py:478-492 | A sum is positive exactly if some stage contributes |
| SummaryGate.TotalsAdd | ci/pytest_summary_gate.py:478-492 | The total of one stage is its counts, and totals add up |
| SummaryGate.CountEvidence | ci/pytest_summary_gate.py:533-549 | Three pieces of integration evidence exist exactly if at most one was given as empty |
| SummaryGate.EvidencedExactly | ci/pytest_summary_gate.py:533-549 | Evidence is sufficient exactly if at most one of the four integration pieces was given as empty |
| SummaryGate.CapsFor | ci/pytest_summary_gate.py:497-531 | Which caps apply, each exactly for its counts |
| SummaryGate.LimitedIsLowest | ci/pytest_summary_gate.py:583-586 | The total after capping is a lower bound of total and caps, and one of them |
| SummaryGate.LevelsBegin | ci/pytest_summary_gate.py:592-599 | The levels begin at 95, 85 and 70 points |
| SummaryGate.ComputeScoring | ci/pytest_summary_gate.py:495-622 | The score is 0, 90, 92, 94, 95 or 100 as the table of causes says; 100 exactly with exit code 0, at most 95 otherwise |
| SummaryGate.Gate | ci/pytest_summary_gate.py:728-748 | Exit code 0 exactly for at least one stage, every stage clean, and the integration evidence; the total is 100 exactly then, and otherwise 0 if no test passed, 90 for a warning, 92 for a test skipped or against expectation, 94 for missing evidence, 95 for anything else |
| ScoreEngines.ScoreEngine.constructor | tools/strict_score_core.py:198-227 | An engine starts without deductions, caps, actions and reasons |
| ScoreEngines.ScoreEngine.Deduct | tools/strict_score_core.py:229-232 | A deduction is recorded and taken from its axis, and from no other |
| ScoreEngines.ScoreEngine.AddCap | tools/strict_score_core.py:234-236 | A cap is recorded once, and the lowest cap is the lesser of it and those before |
| ScoreEngines.ScoreEngine.NextAction | tools/strict_score_core.py:238-240 | An action is recorded once |
| ScoreEngines.ScoreEngine.RecordNo100 | tools/strict_score_core.py:242-244 | A reason against a full score is recorded once, and only beside a deduction or a cap |
| ScoreEngines.ScoreEngine.ApplyPytestResult | tools/strict_score_core.py:246-274 | Failures, warnings and skips have exactly their effect on the points, and put exactly their caps, actions and reasons on record |
| ScoreEngines.ScoreEngine.ApplyFeatureFlags | tools/strict_score_core.py:276-319 | Every missing feature costs its points and is on record as action and reason, except for the debug helper, which asks for no action |
| ScoreEngines.ScoreEngine.ApplyMiddlewareProbe | tools/strict_score_core.py:321-330 | Only a failed probe costs points, caps the score and is on record |
| ScoreEngines.ScoreEngine.ApplyTodoCount | tools/strict_score_core.py:332-336 | Markers cost two points each, ten at most |
| ScoreEngines.ScoreEngine.ApplyState | tools/strict_score_core.py:338-340 | A Redis error caps the score at 85 |
| ScoreEngines.ScoreEngine.ApplyEvidenceMatrix | tools/strict_score_core.py:344-363 | Every specification without evidence costs its axis three points, and fewer than three integration tests cost both main axes three |
| ScoreEngines.ScoreEngine.RecordLauncherSkip | tools/strict_score_core.py:365-367 | A skipped launch caps the score at 92 |
| ScoreEngines.ScoreEngine.Apply | tools/strict_score_core.py:246-367 | Every call keeps the invariant that a reason against a full score comes with a deduction or a cap |
| ScoreEngines.ScoreEngine.GateFullScore | tools/strict_score_core.py:377-380 | The No-100 gate lowers a full score to 99 when a reason is on record |
| ScoreEngines.ScoreEngine.Finalize | tools/strict_score_core.py:369-401 | The total is 100 exactly without deductions and caps, at most the raw total and every cap, below 100 with any reason on record; the No-100 gate adds no cap |
| ScoreEngines.DeductionsCount | tools/strict_score_core.py:229-232 | Positive deductions leave a positive sum on one of the three axes they name |
| ScoreEngines.PytestCosts | tools/strict_score_core.py:246-274 | Failures cost twenty points and five more for every one but the first, warnings two each up to ten; the caps are 90 for warnings, 92 for skips |
| ScoreEngines.FeaturesCost | tools/strict_score_core.py:276-319 | The points of each feature |
| ScoreEngines.OtherCosts | tools/strict_score_core.py:321-342 | What a failed probe, markers, an error of Redis and a skipped launch cost |
| ScoreEngines.EvidenceCosts | tools/strict_score_core.py:344-363 | Three points for every specification without evidence, on its axis, and three on both main axes for fewer than three integration tests |
| ScoreEngines.TotalIs | tools/strict_score_core.py:198-219 | The total is 100 less what the axes lose, of which none loses more than it has, and no more than the lowest cap; open actions cap it at 95 |
| ScoreEngines.CallCounts | tools/strict_score_core.py:229-244 | Among any calls, each counts with all its points and its cap |
| ScoreEngines.CapsHold | tools/strict_score_core.py:246-401 | Whatever else is reported, a warning keeps the score at or below 90, an error of Redis at 85, a skip, a failed probe or a skipped launch at 92, a failure at 80, an open action at 95 |
| ScoreEngines.Score | tools/strict_score_core.py:246-401 | After any calls the score is that of their combined effect, and 100 exactly if no call had an effect |
| ScoreEngines.OrderIsIrrelevant | tools/strict_score_core.py:246-401 | The combined effect, and so the score, does not depend on the order of the calls |
| SummaryText.ParseSummaryCounts | strict_report.py:231-271 | Reads the last stretch between equals signs token by token, and fails on any token it does not understand |
| SummaryText.ParseSummaryExtended | tools/strict_score_reporter.py:150-173 | Reads the first stretch between equals signs that is set off by blanks, skipping tokens it does not know |
| SummaryText.ParseSummaryBody | ci/pytest_summary_gate.py:274-296 | Reads number and label of every token with two words, fails on unknown ones, and insists on passed |
| SummaryText.StrictReadsField | strict_report.py:237-262 | A written field is read as its count and label by the strict report |
| SummaryText.LenientReadsField | tools/strict_score_reporter.py:160-172 | A written field is read as its count and label by the score reporter, except errors, which it skips |
| SummaryText.GateReadsField | ci/pytest_summary_gate.py:277-293 | A written field is read as its count and label by the gate |
| SummaryReaders.StrictReads | strict_report.py:236-262 | The strict report reads a number, blanks, and one of its words for a label in any case, and refuses any other word |
| SummaryReaders.LenientReads | tools/strict_score_reporter.py:160-172 | The score reporter looks only at how the rest of a token starts |
| SummaryReaders.LenientSkips | tools/strict_score_reporter.py:160-166 | It passes over everything else |
| SummaryReaders.GateReads | ci/pytest_summary_gate.py:274-293 | The gate reads number and second word of a token, in any case, with errors as failures, and refuses an unknown word |
| SummaryReaders.GateSkips | ci/pytest_summary_gate.py:281-287 | It passes over a token of one word, and refuses one whose first word is no number |
| SummaryReaders.NoToken | strict_report.py:256-259 | Without a number, or without a blank behind it, there is no token |
| SummaryReaders.LastOfFew | strict_report.py:231-235 | Of several stretches between equals signs the last counts, and a sign that ends a stretch starts no other |
| SummaryReaders.FirstOfFew | tools/strict_score_reporter.py:154-158 | The score reporter takes the first stretch that is set off by blanks |
| SummaryReaders.RuledStretch | strict_report.py:231-235 | Any number of equals signs on both sides of a stretch leaves it to be found by both readers |
| SummaryReaders.LastCounts | strict_report.py:237-262 | Of two counts of a label the later one stays, and a label without a count has none |
| SummaryText.LineParts | tools/ci_test_orchestrator.py:330-340 | Both readers of the written line cut out exactly its fields |
| SummaryText.StrictRoundTrip | strict_report.py:231-271 | For all counts, the strict report reads the written line back exactly |
| SummaryText.LenientRoundTrip | tools/strict_score_reporter.py:150-173 | For all counts, the score reporter reads the written line back exactly, except for errors, which it leaves at zero |
| SummaryText.GateRoundTrip | ci/pytest_summary_gate.py:323-330 | For all counts, the gate reads its canonical line back exactly on its five counts |
| JwtSegments.PaddingRestored | auth/utils.py:85-91 | Stripped padding is restored from the length alone, and no encoding holds a dot or an equals sign (RFC 4648, section 3.2) |
| JwtSegments.AlphabetIs | auth/utils.py:90-91 | The sixty-four symbols (RFC 4648, table 2) |
| JwtSegments.QuadBits | auth/utils.py:90-91 | Four symbols hold the bits of three bytes, the first the highest |
| JwtSegments.QuadsRoundTrip | auth/utils.py:85-91 | Padded base64url is decoded to the bytes it encodes (RFC 4648, section 5) |
| JwtSegments.RoundTrip | auth/utils.py:85-91 | For all byte strings, decoding inverts encoding without padding |
| JwtSegments.TokenRoundTrip | auth/utils.py:94-99 | Three encoded segments joined with dots are split and decoded to the three byte strings (RFC 7515, section 7.1) |
| RedisCommands.EncodeRedisCommand | tools/ci_pytest_runner.py:468-474 | The loop writes the array header and every part as a bulk string |
| RedisCommands.CommandReads | tools/ci_pytest_runner.py:468-474 | An encoded command is read back from its parts' lengths, whatever the parts hold and whatever follows (Redis serialization protocol, arrays and bulk strings) |
| Decimals.DigitsAre | tools/ci_pytest_runner.py:468-474 | A length is written in decimal digits |
| RedisCommands.UniquelyDecodable | tools/ci_pytest_runner.py:468-474 | Two sequences of commands with the same bytes on the wire are the same sequence |
| RedisCommands.ScriptFlushes | tools/ci_pytest_runner.py:546-555 | The bytes of the script, read back, are AUTH with its arguments in order, SELECT of the database asked for, and FLUSHDB |
| RedisCommands.PingOnTheWire | tools/ci_pytest_runner.py:468-474 | A command on the wire |
| RedisCommands.LineIsShortest | tools/ci_pytest_runner.py:477-486 | A line is the shortest prefix that ends with CRLF, or all there is |
| RedisCommands.Socket.ReadRedisLine | tools/ci_pytest_runner.py:477-486 | Reading byte by byte consumes exactly one line |
| RedisCommands.Socket.SendCommand | tools/ci_pytest_runner.py:534-540 | A command is sent whole and one reply line is consumed |
| RedisCommands.Socket.PerformFlush | tools/ci_pytest_runner.py:542-552 | What is sent is a prefix of AUTH, SELECT, FLUSHDB; all commands but the last sent drew a reply that is no error; success means exactly that none drew an error, and then the bytes sent, read back, end in SELECT of the number asked for and FLUSHDB, behind AUTH with user name and password if there is a password |
| RedisCommands.FlushOnlyAfterAcceptance | tools/ci_pytest_runner.py:542-552 | FLUSHDB is among the commands sent only if AUTH, when there is a password, and SELECT each drew a reply that is no error |
| RedisCommands.CompleteExactly | tools/ci_pytest_runner.py:477-486 | The first replies are complete lines exactly if the stream holds as many line ends |
| RedisCommands.ClosedAfterAuth | tools/ci_pytest_runner.py:534-552 | On a connection closed after the answer to AUTH no command draws an error, so the flush is reported as done, although SELECT and FLUSHDB were never answered |
| ImportRewriting.ModuleGraph.constructor | tools/refactor_imports.py:439-442 | A graph starts without entries |
| ImportRewriting.ModuleGraph.AddFile | tools/refactor_imports.py:443-466 | Adding a package or module file adds exactly its own bare name and those of the packages above a module, and keeps every entry a map from a bare name to the module of that name |
| ImportRewriting.ModuleGraph.Build | tools/refactor_imports.py:439-467 | Whatever the order of the files, the entries are exactly those of the files, and each maps a bare name to the module of that name below the source package, or that package to itself |
| ImportRewriting.PackageNames | tools/refactor_imports.py:443-453 | A package file adds the dotted name of its directory, the source package its own name |
| ImportRewriting.ModuleNames | tools/refactor_imports.py:454-466 | Any other file adds its dotted name and those of the packages above it |
| ImportRewriting.DottedNameToNode | tools/refactor_imports.py:509-514 | The loop builds the chain of attributes of the name's components |
| ImportRewriting.NameRoundTrip | tools/refactor_imports.py:498-514 | A dotted name survives being turned into a node and back |
| ImportRewriting.NodeRoundTrip | tools/refactor_imports.py:498-514 | A node of names without dots survives being turned into a dotted name and back |
| ImportRewriting.ChainComponents | tools/refactor_imports.py:498-514 | A node built from names has exactly these as its components |
| ImportRewriting.NoName | tools/refactor_imports.py:498-506 | What has no components has no dotted name |
| ImportRewriting.LeaveImport | tools/refactor_imports.py:547-557 | Every name of an import is rewritten by the graph, in place |
| ImportRewriting.AliasRewritten | tools/refactor_imports.py:550-556 | A name becomes the module that the graph gives for it exactly if it is a known one outside the source package, and stays otherwise |
| ImportRewriting.NoNameStays | tools/refactor_imports.py:550-551 | What is no dotted name stays |
| ImportRewriting.FromRewritten | tools/refactor_imports.py:559-575 | A from-import names the module that the graph gives for its name and keeps its dots; with conversion, a relative import of a module in the source package or of a known one becomes absolute |
| ImportRewriting.PackageRewritten | tools/refactor_imports.py:563-570 | The same for an import by dots alone |
| ImportRewriting.AliasIdempotent | tools/refactor_imports.py:547-557 | Rewriting the names of an import twice is rewriting them once |
| ImportRewriting.FromIdempotent | tools/refactor_imports.py:559-575 | Without the conversion of relative imports, rewriting a from-import twice is rewriting it once |
| ImportRewriting.ConvertedIdempotent | tools/refactor_imports.py:559-575 | With the conversion, it is exactly if a converted name is not sent elsewhere by the graph, and a name sent into the source package behind its dots is, with that prefix, no entry below the package the import starts from |
| ImportRewriting.NestedSourceUnsettled | tools/refactor_imports.py:559-575 | With a module src/src.py, the first pass sends a relative import to the package and the second to that module |
| ImportRewriting.DisplacedUnsettled | tools/refactor_imports.py:559-575 | A concrete relative import outside the source package that is rewritten behind its dots by the first pass and converted by the second |
| BoundedBuffers.BoundedBuffer.constructor | scripts/coverage_gate.py:82-85 | A buffer starts empty |
| BoundedBuffers.BoundedBuffer.Append | scripts/coverage_gate.py:87-96 | After every append the buffer holds the longest suffix of whole non-empty chunks that fits |
| BoundedBuffers.BoundedBuffer.GetValue | scripts/coverage_gate.py:98-101 | The value is the chunks joined, within the limit |
| BoundedBuffers.LongestIsUnique | scripts/coverage_gate.py:87-96 | That suffix is determined by the history and the limit |
| BoundedBuffers.FitsExactly | scripts/coverage_gate.py:87-96 | A suffix of the history fits exactly if it has no more chunks than are kept |
| Percentile.P95 | tools/ci_pytest_runner.py:438-443 | A sample such that at least 95 percent of the samples are at most it and fewer than 95 percent are below it; zero without samples |
| Percentile.SortedIsSorted | tools/ci_pytest_runner.py:441-441 | The samples in ascending order, each as often as before |
| Percentile.CountsAre | tools/ci_pytest_runner.py:438-443 | The two numbers are how many samples are at most, and below, the value |
| Percentile.RankIsLeast | tools/ci_pytest_runner.py:442-443 | The rank is the least one with 95 percent of the samples up to it |
| Retries.DecidesOnce | tooling/retry.py:58-76 | There is one attempt that decides |
| Retries.Retry | tooling/retry.py:39-79 | Calls up to the first attempt that is not retryable, at most as many as allowed; one terminal counter; retries are calls less one; the clock advances by the sum of exactly those delays |
| Retries.DelayDoubles | tooling/retry.py:27-36 | The first delay is the base delay and every later one twice the one before, up to the largest; the jitter comes on top |
| Retries.DelaysAre | tooling/retry.py:27-36 | The delays of the attempts, one by one |
| Retries.SumJoins | tooling/retry.py:66-70 | The time slept is that of the delays together |
| Retries.Clock.Advance | tooling/clock.py:42-47 | The monotonic clock advances by the given time |
| Retries.Clock.Sleep | tooling/clock.py:61-64 | Sleeping advances the clock |

## Left out

- WorkflowPatcher.TextWorkflowPatcher.Patch: takes the number of rounds; the program goes on until nothing is found. For
  laid-out workflows and for clean runs as many rounds as the text has hot run keys are enough. For other texts no bound is
  proved: a new key of a job sends the search back to the start of that job.
- PatchResults.RunEnds: speaks of laid-out workflows. The strategy of a job stands before its steps, the steps key is not so
  deep that a written line is taken for the key of the job, and an install step to be replaced stands below the steps key;
  that these are needed is shown for the second only (`DeepJobLacksAxisAgain`). A job that misplaces support steps, or is
  swallowed while pytest steps follow it, is left out of the exact outcome; what happens to it is stated on its own.
- PatchResults.JobsArePatched: says that no support step is lacking for texts in which no pytest step has the name of one,
  and no replaced install script holds the only name line of its step.
- WorkflowFinder.FindWorkflow: takes the candidate texts as already read and split into lines; missing files and the job
  id it also reports are left out.
- JobPatcher.PatchDocument: takes the jobs with their steps as lists; documents and jobs of another shape are left out, and
  the two errors of a refused job are one.
- TokenBuckets.RateLimiter.Clear: matches the namespace as a prefix, where the store takes it as a pattern; they agree for
  namespaces without the signs of patterns.
- ShellFixer.FixCalls: takes from the syntax tree where nodes stand and what a call is replaced by. Python reports
  columns in bytes of UTF-8; the model counts characters, so it speaks of ASCII lines. The import that is added afterwards
  is left out.
- SummaryText.ParseSummaryExtended: starts from the text after digits were folded and control characters removed, and
  SummaryText.ParseSummaryCounts from the text after normalisation and removal of terminal colours.
- SummaryText.ParseSummaryBody: knows decimal digits only, where Python's integer syntax also allows signs and underscores.
- JwtSegments.RoundTrip: the decoder of the model rejects characters outside the alphabet, which Python's skips; the JSON
  inside the segments is left out.
- ScoreEngines.ScoreEngine.ApplyEvidenceMatrix: takes which specifications have evidence and how many integration tests are
  named; reading the evidence files is left out.
- Percentile.P95: uses exact numbers, also for the rank.
- Retries.Retry: takes what each call comes to as a function of its number, and the jitter as a function of the attempt; the
  wall clock beside the monotonic one is left out.
- Floating point: reals are exact, and no rounding is modelled.
- Tabs, white space beyond ASCII, and letters beyond ASCII in words: indentation is a number of blanks; characters above
  127 count as parts of words.
- Parsed YAML, syntax trees and regular expression engines: the model starts from lines, steps, spans and nodes, and spells
  out only the patterns it needs. Carriage returns alone do not end lines in scripts.
- Names of steps that are the same object twice through YAML aliases: steps are values in the model.
- The order in which caps are listed, the texts of reasons and messages, debug dictionaries, the changed flag and
  request metadata.
- The migration of artifact steps itself (which edits it records), stream collection, report rendering, thresholds and
  coverage parsing: mostly text layout.
- Files, processes, sockets, Redis, Prometheus and logging: parameters or state of the model where they matter.
