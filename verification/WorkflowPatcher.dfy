/** The line-based patcher: what one round of it does, as a function of its state, and the program that does it. */
module WorkflowPatcher {
  import opened PyStrings
  import opened StepBlocks
  import opened WorkflowLines
  import opened StepRewriter
  import RewrittenSteps
  import opened JobMatrix
  import opened TextPatcher

  // ---------------------------------------------------------------- offsets

  /** The offset of line `i`: the lengths of the lines before it, each with its newline. */
  function OffsetAt(lines: seq<Line>, newline: nat, i: nat): nat {
    if i == 0 then 0
    else OffsetAt(lines, newline, i - 1) + newline
         + if i <= |lines| then lines[i - 1].Indent() + |lines[i - 1].text| else 0
  }

  /** The lines as they stand in the file. */
  function Rendered(lines: seq<Line>, newline: string): string {
    if lines == [] then ""
    else
      var last := lines[|lines| - 1];
      Rendered(lines[..|lines| - 1], newline) + seq(last.Indent(), k => ' ') + last.text + newline
  }

  /** An offset counts the characters before the line; behind the text every line counts as empty. */
  lemma {:induction false} OffsetIsLength(lines: seq<Line>, newline: string, i: nat)
    ensures OffsetAt(lines, |newline|, i)
         == if i <= |lines| then |Rendered(lines[..i], newline)|
            else |Rendered(lines, newline)| + (i - |lines|) * |newline|
  {
    if i > 0 {
      OffsetIsLength(lines, newline, i - 1);
      if i <= |lines| {
        assert lines[..i][..i - 1] == lines[..i - 1];
      } else {
        assert i - 1 == |lines| ==> lines[..i - 1] == lines;
        assert (i - |lines|) * |newline| == (i - 1 - |lines|) * |newline| + |newline|;
      }
    }
  }

  // ---------------------------------------------------------------- the axis and the support steps of a job

  type Bounds = (nat, nat)

  predicate InText(lines: seq<Line>, job: Bounds) { job.0 < job.1 <= |lines| }

  /** The text in which the job has its axis. */
  function WithAxis(lines: seq<Line>, job: Bounds): (u: seq<Line>)
    requires InText(lines, job)
    ensures |lines| <= |u|
  {
    var e := MatrixEdit(lines, job.0, job.1);
    if e.Add? then InsertLines(lines, e.at, e.lines) else lines
  }

  /** The lines of the job's install step to be replaced, if it is found and outdated. */
  function InstallRefresh(lines: seq<Line>, job: Bounds): (r: Option<(nat, nat)>) {
    var s := StepNamed(lines, job.0, job.1, INSTALL_STEP_NAME);
    if INSTALL_STEP_NAME in NamesOfSteps(lines, job.0, job.1) && s.Some? && Outdated(s.value.lines).Some? then
      Some((s.value.start + Outdated(s.value.lines).value.0, s.value.start + Outdated(s.value.lines).value.1))
    else None
  }

  function AfterRefresh(lines: seq<Line>, refreshed: Option<(nat, nat)>): (r: seq<Line>)
    ensures refreshed.None? ==> r == lines
  {
    match refreshed
    case None => lines
    case Some((q, p)) => if q < p <= |lines| then Refreshing(lines, q, p) else lines
  }

  function Nearer(a: nat, b: nat): (m: nat)
    ensures m <= a && m <= b && (m == a || m == b)
  {
    if a <= b then a else b
  }

  /** The support steps that the job lacks, for a step at the given depth. */
  function Lacking(lines: seq<Line>, job: Bounds, indent: nat): seq<Line> {
    MissingSteps(NamesOfSteps(lines, job.0, job.1), indent)
  }

  /** The text in which the install step is refreshed and what the job lacks is inserted: where `step` was found, even
      if the refresh has moved it. */
  function WithSupport(lines: seq<Line>, job: Bounds, step: Step): seq<Line> {
    var u := AfterRefresh(lines, InstallRefresh(lines, job));
    InsertLines(u, Nearer(step.start, |u|), Lacking(lines, job, step.indent))
  }

  /** Where the step is looked for afterwards. */
  function NewStart(lines: seq<Line>, job: Bounds, step: Step): nat {
    if InstallRefresh(lines, job).Some? then job.0 else step.start + |Lacking(lines, job, step.indent)|
  }

  /** The install step before the step changes its length while a support step is lacking: what is lacking is inserted
      where the step was, not where it is. */
  predicate Misplaces(lines: seq<Line>, job: Bounds, step: Step) {
    && Lacking(lines, job, step.indent) != []
    && InstallRefresh(lines, job).Some?
    && var r := InstallRefresh(lines, job).value; r.0 < step.start && r.1 - r.0 != 1 + |INSTALL_RUN_COMMANDS|
  }

  /** That is, the refresh before the step changes the length of the text, and so moves the step. */
  lemma {:induction false} MisplacesIs(lines: seq<Line>, job: Bounds, step: Step)
    ensures Misplaces(lines, job, step) <==>
            && Lacking(lines, job, step.indent) != []
            && InstallRefresh(lines, job).Some? && InstallRefresh(lines, job).value.0 < step.start
            && |AfterRefresh(lines, InstallRefresh(lines, job))| != |lines|
  {
    hide Lacking, NamesOfSteps, Outdated, StepAt;
    if InstallRefresh(lines, job).Some? {
      var s := StepNamed(lines, job.0, job.1, INSTALL_STEP_NAME).value;
      var (q, p) := InstallRefresh(lines, job).value;
      assert StepAt(lines, s.start) == Some(s) && s.lines == lines[s.start..s.end];
      hide InstallRefresh;
      assert q < p <= |lines| && |INSTALL_RUN_COMMANDS| == 4;
      assert |Refreshing(lines, q, p)| == |lines| - (p - q) + 5;
      hide Refreshing, INSTALL_RUN_COMMANDS;
    }
  }

  // ---------------------------------------------------------------- one round

  /** Preparing a job ends with an error, or with the text, the step to rewrite, and the bounds of its job. */
  datatype Phase = Stopped(error: PatchError) | Reached(lines: seq<Line>, step: Step, job: Bounds)

  ghost function Located(lines: seq<Line>, step: Option<Step>): (p: Phase)
    requires step.Some? ==> StepAt(lines, step.value.start) == step
    ensures p.Reached? ==> p.lines == lines && step == Some(p.step) && JobOf(lines, p.step.start) == Some(p.job)
  {
    if step.None? || JobOf(lines, step.value.start).None? then Stopped(AnchorNotFound)
    else Reached(lines, step.value, JobOf(lines, step.value.start).value)
  }

  /** The job is given its axis, and the step is searched from the start of the job. */
  ghost function AxisPhase(lines: seq<Line>, job: Bounds): Phase
    requires InText(lines, job)
  {
    if MatrixEdit(lines, job.0, job.1).Conflict? then Stopped(MatrixConflict)
    else Located(WithAxis(lines, job), FirstStep(WithAxis(lines, job), job.0))
  }

  /** The step found after the support steps were ensured: the one at the new start, or the first one of the job. */
  ghost function FoundAgain(lines: seq<Line>, from: nat, job: nat): (r: Option<Step>)
    ensures r.Some? ==> StepAt(lines, r.value.start) == r && !Cold(Shapes(r.value.lines))
  {
    if StepAt(lines, from).Some? && !Cold(Shapes(StepAt(lines, from).value.lines)) then StepAt(lines, from)
    else FirstStep(lines, job)
  }

  /** The job is given its support steps, and the step is found again. */
  ghost function SupportPhase(lines: seq<Line>, step: Step, job: Bounds): Phase {
    var u := WithSupport(lines, job, step);
    Located(u, FoundAgain(u, NewStart(lines, job, step), job.0))
  }

  function Rewriting(lines: seq<Line>, step: Step): seq<Line>
    requires step.start <= step.end <= |lines|
  {
    lines[..step.start] + RewriteLines(step.lines, step.indent) + lines[step.end..]
  }

  /** What the loop carries from round to round.  A job is known by the offsets of its bounds when its first line was
      met. */
  datatype State = State(lines: seq<Line>, search: nat, keys: map<nat, Bounds>, axisDone: set<Bounds>,
      supportDone: set<Bounds>) {
    function KeyOf(job: Bounds, newline: nat): Bounds {
      if job.0 in keys then keys[job.0] else (OffsetAt(lines, newline, job.0), OffsetAt(lines, newline, job.1))
    }

    function KeysWith(job: Bounds, newline: nat): map<nat, Bounds> {
      if job.0 in keys then keys else keys[job.0 := KeyOf(job, newline)]
    }
  }

  /** What was done to which text. */
  datatype Change =
    | AxisEnsured(text: seq<Line>, job: Bounds)
    | SupportEnsured(text: seq<Line>, job: Bounds, step: Step)
    | StepRewritten(text: seq<Line>, step: Step)
  {
    predicate InPlace() { SupportEnsured? ==> !Misplaces(text, job, step) }
  }

  datatype Round = Idle | Broken(error: PatchError) | Done(next: State, log: seq<Change>)

  /** The job of the first step is prepared, if it was not before. */
  ghost function Prepared(s: State, step: Step, job: Bounds, newline: nat): Phase
    requires InText(s.lines, job)
  {
    var key := s.KeyOf(job, newline);
    var a := if key in s.axisDone then Reached(s.lines, step, job) else AxisPhase(s.lines, job);
    if a.Stopped? || key in s.supportDone then a else SupportPhase(a.lines, a.step, a.job)
  }

  ghost function Preparations(s: State, step: Step, job: Bounds, newline: nat): seq<Change>
    requires InText(s.lines, job)
  {
    var key := s.KeyOf(job, newline);
    var a := if key in s.axisDone then Reached(s.lines, step, job) else AxisPhase(s.lines, job);
    (if key in s.axisDone then [] else [AxisEnsured(s.lines, job)])
    + (if a.Stopped? || key in s.supportDone then [] else [SupportEnsured(a.lines, a.job, a.step)])
  }

  lemma {:induction false} PreparedStep(s: State, step: Step, job: Bounds, newline: nat)
    requires InText(s.lines, job) && StepAt(s.lines, step.start) == Some(step)
    ensures var p := Prepared(s, step, job, newline); p.Reached? ==> StepAt(p.lines, p.step.start) == Some(p.step)
  {
    hide StepAt, MatrixEdit, FirstStep, FoundAgain, WithSupport, NewStart, JobOf;
  }

  /** One round: the next step that runs pytest is found, its job is prepared, and the step is rewritten. */
  ghost function RoundOf(s: State, newline: nat): Round {
    match FirstStep(s.lines, s.search)
    case None => Idle
    case Some(step) =>
      match JobOf(s.lines, step.start)
      case None => Broken(AnchorNotFound)
      case Some(job) =>
        var key := s.KeyOf(job, newline);
        var p := Prepared(s, step, job, newline);
        PreparedStep(s, step, job, newline);
        if p.Stopped? then Broken(p.error)
        else
          Done(State(Rewriting(p.lines, p.step), p.step.start + |RewriteLines(p.step.lines, p.step.indent)|,
                     s.KeysWith(job, newline), s.axisDone + {key}, s.supportDone + {key}),
               Preparations(s, step, job, newline) + [StepRewritten(p.lines, p.step)])
  }

  // ---------------------------------------------------------------- the run

  /** How the first `rounds` rounds end: unless they are enough, the run is unfinished. */
  datatype Outcome = Patched(lines: seq<Line>) | Failed(error: PatchError) | Unfinished

  datatype Result = Result(outcome: Outcome, log: seq<Change>)

  ghost function Rounds(s: State, newline: nat, rounds: nat): Result
    decreases rounds
  {
    match RoundOf(s, newline)
    case Idle => Result(Patched(s.lines), [])
    case Broken(e) => Result(Failed(e), [])
    case Done(next, log) =>
      if rounds == 0 then Result(Unfinished, [])
      else
        var rest := Rounds(next, newline, rounds - 1);
        Result(rest.outcome, log + rest.log)
  }

  function StartOf(text: seq<Line>): State { State(text, 0, map[], {}, {}) }

  /** A run on a text; a text without a pytest step is refused. */
  ghost function Run(text: seq<Line>, newline: nat, rounds: nat): Result {
    if FirstStep(text, 0).None? then Result(Failed(AnchorNotFound), []) else Rounds(StartOf(text), newline, rounds)
  }

  lemma {:induction false} RoundFinds(s: State, newline: nat)
    ensures RoundOf(s, newline).Idle? <==> FirstStep(s.lines, s.search).None?
  {
    hide FirstStep, JobOf, Prepared, Rewriting, RewriteLines;
  }

  // ---------------------------------------------------------------- the program

  /** How a round of the program ends. */
  datatype Turn = Over | Stop(error: PatchError) | Next(search: nat, key: Bounds)

  class TextWorkflowPatcher {
    var lines: seq<Line>
    const newline: nat
    var offsets: seq<nat>
    var offsetsValid: bool
    var jobKeys: map<nat, Bounds>

    /** The lines are as read, and a valid offset cache holds the offsets of the current lines. */
    ghost predicate Valid()
      reads this
    {
      && AllRead(lines)
      && (offsetsValid ==> |offsets| == |lines| + 1 && forall i | 0 <= i < |offsets| ::
         offsets[i] == OffsetAt(lines, newline, i))
    }

    constructor (text: seq<Line>, newline: nat)
      requires AllRead(text)
      ensures Valid() && lines == text && this.newline == newline && jobKeys == map[] && offsetsValid
    {
      this.lines := text;
      this.newline := newline;
      this.offsets, this.offsetsValid, this.jobKeys := [], false, map[];
      new;
      RebuildOffsets();
    }

    method RebuildOffsets()
      requires AllRead(lines)
      modifies `offsets, `offsetsValid
      ensures Valid() && offsetsValid
    {
      hide WellRead, OffsetAt;
      OffsetStart(lines, newline);
      var cache: seq<nat>, running: nat := [0], 0;
      for i := 0 to |lines|
        invariant |cache| == i + 1 && running == OffsetAt(lines, newline, i)
        invariant forall k | 0 <= k < |cache| :: cache[k] == OffsetAt(lines, newline, k)
      {
        OffsetNext(lines, newline, i);
        running := running + lines[i].Indent() + |lines[i].text|;
        running := running + newline;
        cache := cache + [running];
      }
      offsets, offsetsValid := cache, true;
    }

    /** Offsets are read through the cache, and are those of the current lines whatever was spliced before. */
    method ByteOffset(i: nat) returns (r: nat)
      requires Valid()
      modifies `offsets, `offsetsValid
      ensures Valid() && r == OffsetAt(lines, newline, i)
    {
      if !offsetsValid {
        RebuildOffsets();
      }
      var last := |offsets| - 1;
      if i <= last {
        return offsets[i];
      }
      OffsetsPastEnd(lines, newline, i);
      return offsets[last] + (i - last) * newline;
    }

    /** Every splice of lines invalidates the cache. */
    method SpliceLines(a: nat, b: nat, ls: seq<Line>)
      requires Valid() && a <= b <= |lines| && AllRead(ls)
      modifies `lines, `offsetsValid
      ensures Valid() && lines == old(lines)[..a] + ls + old(lines)[b..]
    {
      hide WellRead;
      lines := lines[..a] + ls + lines[b..];
      offsetsValid := false;
    }

    /** The key of a job is fixed when its first line is first met. */
    method JobKeyOf(job: Bounds, ghost s: State) returns (key: Bounds)
      requires Valid() && s.lines == lines && s.keys == jobKeys
      modifies `offsets, `offsetsValid, `jobKeys
      ensures Valid() && key == s.KeyOf(job, newline) && jobKeys == s.KeysWith(job, newline)
    {
      if job.0 in jobKeys {
        return jobKeys[job.0];
      }
      var startOffset := ByteOffset(job.0);
      var endOffset := ByteOffset(job.1);
      key := (startOffset, endOffset);
      jobKeys := jobKeys[job.0 := key];
    }

    /** Gives the job its axis; false means that the axis it has is another one. */
    method GiveAxis(job: Bounds) returns (ok: bool)
      requires Valid() && InText(lines, job)
      modifies `lines, `offsetsValid
      ensures Valid() && (ok <==> !MatrixEdit(old(lines), job.0, job.1).Conflict?)
      ensures lines == if ok then WithAxis(old(lines), job) else old(lines)
    {
      var edit := EnsureMatrix(lines, job.0, job.1);
      hide WellRead, MatrixEdit;
      if edit.Add? {
        AxisLinesAreRead(lines, job);
        SpliceLines(edit.at, edit.at, edit.lines);
      }
      ok := !edit.Conflict?;
    }

    /** Replaces the script of the job's install step, if it is outdated. */
    method RefreshInstallStep(job: Bounds, names: set<string>) returns (r: bool)
      requires Valid() && names == NamesOfSteps(lines, job.0, job.1)
      modifies `lines, `offsetsValid
      ensures Valid() && (r <==> InstallRefresh(old(lines), job).Some?)
      ensures lines == AfterRefresh(old(lines), InstallRefresh(old(lines), job))
    {
      assert AllRead(lines);
      hide *;
      if INSTALL_STEP_NAME !in names {
        NoInstallStep(lines, job);
        return false;
      }
      var block := FindStepBlock(lines, job.0, job.1, INSTALL_STEP_NAME);
      if block.None? {
        NoInstallStep(lines, job);
        return false;
      }
      var o := FindOutdated(block.value.lines);
      if o.None? {
        NoInstallStep(lines, job);
        return false;
      }
      var q, p := block.value.start + o.value.0, block.value.start + o.value.1;
      OutdatedInstallStep(lines, job, q, p);
      var indent := lines[q].Indent();
      InstallRunIsRead(indent);
      SpliceLines(q, p, InstallRun(indent));
      return true;
    }

    /** Refreshes an outdated install step of the job, and inserts the support steps it lacks where `step` was found. */
    method EnsureSupportSteps(job: Bounds, step: Step) returns (newStart: nat)
      requires Valid()
      modifies `lines, `offsetsValid
      ensures Valid() && lines == WithSupport(old(lines), job, step) && newStart == NewStart(old(lines), job, step)
    {
      hide WellRead, InstallRefresh, AfterRefresh, NamesOfSteps, MissingSteps;
      var names := CollectStepNames(lines, job.0, job.1);
      var relocate := RefreshInstallStep(job, names);
      var added := MissingSteps(names, step.indent);
      var at := Nearer(step.start, |lines|);
      if added == [] {
        assert InsertLines(lines, at, added) == lines;
        return if relocate then job.0 else step.start;
      }
      MissingStepsAreSteps(names, step.indent);
      SpliceLines(at, at, added);
      return if relocate then job.0 else step.start + |added|;
    }

    /** The step at the new start, if it runs pytest, or else the first one from the start of the job. */
    method FindAgain(from: nat, job: nat) returns (r: Option<Step>)
      ensures r == FoundAgain(lines, from, job)
    {
      hide StepEnd, FirstStep;
      r := StepAt(lines, from);
      if r.Some? {
        var found := ContainsPytest(r.value.lines);
        if found {
          return r;
        }
      }
      r := NextPytestStep(lines, job);
    }

    /** The step is there and its job is found, or the phase is over. */
    method Locate(step: Option<Step>, ghost p: Phase) returns (job: Option<Bounds>)
      requires (step.Some? ==> StepAt(lines, step.value.start) == step) && p == Located(lines, step)
      ensures job.None? ==> p == Stopped(AnchorNotFound)
      ensures job.Some? ==> step.Some? && p == Reached(lines, step.value, job.value)
    {
      hide StepEnd, JobOf;
      if step.None? {
        return None;
      }
      job := LocateJobBounds(lines, step.value.start);
    }

    /** Prepares the job of a step: the axis and the support steps, each unless it was done for the key before. */
    method Prepare(step0: Step, job0: Bounds, key: Bounds, matrixDone: set<Bounds>, supportDone: set<Bounds>,
                   ghost s: State)
      returns (error: Option<PatchError>, step: Step)
      requires Valid() && InText(lines, job0) && StepAt(lines, step0.start) == Some(step0)
      requires s.lines == lines && s.axisDone == matrixDone && s.supportDone == supportDone
      requires key == s.KeyOf(job0, newline)
      modifies `lines, `offsetsValid
      ensures Valid()
      ensures error.Some? ==> Prepared(s, step0, job0, newline) == Stopped(error.value)
      ensures error.None? ==> (exists job: Bounds :: Prepared(s, step0, job0, newline) == Reached(lines, step, job))
                              && StepAt(lines, step.start) == Some(step)
    {
      PreparedStep(s, step0, job0, newline);
      hide StepAt, MatrixEdit, FirstStep, FoundAgain, WithSupport, WithAxis, NewStart, JobOf, WellRead, OffsetAt;
      step := step0;
      var job := job0;
      if key !in matrixDone {
        var ok := GiveAxis(job);
        if !ok {
          return Some(MatrixConflict), step;
        }
        var found := NextPytestStep(lines, job.0);
        var bounds := Locate(found, AxisPhase(s.lines, job0));
        if bounds.None? {
          return Some(AnchorNotFound), step;
        }
        step, job := found.value, bounds.value;
      }
      if key !in supportDone {
        ghost var a := Reached(lines, step, job);
        var newStart := EnsureSupportSteps(job, step);
        var found := FindAgain(newStart, job.0);
        var bounds := Locate(found, SupportPhase(a.lines, a.step, a.job));
        if bounds.None? {
          return Some(AnchorNotFound), step;
        }
        step, job := found.value, bounds.value;
      }
      assert Prepared(s, step0, job0, newline) == Reached(lines, step, job);
      return None, step;
    }

    /** Rewrites a step in place, and says where the search goes on. */
    method ReplaceStep(step: Step) returns (next: nat)
      requires Valid() && StepAt(lines, step.start) == Some(step)
      modifies `lines, `offsetsValid
      ensures Valid() && lines == Rewriting(old(lines), step)
      ensures next == step.start + |RewriteLines(step.lines, step.indent)|
    {
      assert AllRead(lines);
      StepIsBlock(lines, step);
      hide *;
      var updated := RewriteStep(step.lines, step.indent);
      RewritesRead(step.lines, step.indent);
      RewritingIs(lines, step);
      SpliceLines(step.start, step.end, updated);
      next := step.start + |updated|;
    }

    /** One round of the loop. */
    method OneRound(search: nat, matrixDone: set<Bounds>, supportDone: set<Bounds>, ghost s: State)
      returns (t: Turn, ghost log: seq<Change>)
      requires Valid() && s == State(lines, search, jobKeys, matrixDone, supportDone)
      modifies this
      ensures Valid()
      ensures t.Over? ==> RoundOf(s, newline) == Idle && lines == s.lines
      ensures t.Stop? ==> RoundOf(s, newline) == Broken(t.error)
      ensures t.Next? ==>
                RoundOf(s, newline) == Done(State(lines, t.search, jobKeys, matrixDone + {t.key},
                    supportDone + {t.key}), log)
    {
      hide StepAt, FirstStep, JobOf, Prepared, Preparations, WellRead, OffsetAt, Rewriting, RewriteLines;
      log := [];
      var found := NextPytestStep(lines, search);
      if found.None? {
        return Over, log;
      }
      var bounds := LocateJobBounds(lines, found.value.start);
      if bounds.None? {
        return Stop(AnchorNotFound), log;
      }
      var key := JobKeyOf(bounds.value, s);
      var error, step := Prepare(found.value, bounds.value, key, matrixDone, supportDone, s);
      if error.Some? {
        return Stop(error.value), log;
      }
      log := Preparations(s, found.value, bounds.value, newline) + [StepRewritten(lines, step)];
      var next := ReplaceStep(step);
      return Next(next, key), log;
    }

    /** Gives every job with a pytest step its axis and support steps, and rewrites the step; the first `rounds`
        rounds. */
    method Patch(rounds: nat) returns (r: Outcome, ghost log: seq<Change>)
      requires Valid() && jobKeys == map[]
      modifies this
      ensures Valid() && Result(r, log) == Run(old(lines), newline, rounds)
      ensures r.Patched? ==> r.lines == lines
    {
      hide FirstStep, RoundOf, WellRead, OffsetAt, Rounds;
      ghost var text, s := lines, StartOf(lines);
      RoundFinds(s, newline);
      NothingLogged(Rounds(s, newline, rounds));
      var matrixDone: set<Bounds>, supportDone: set<Bounds> := {}, {};
      var processedAny := false;
      var searchIndex: nat := 0;
      var left := rounds;
      log := [];
      while true
        invariant Valid() && s == State(lines, searchIndex, jobKeys, matrixDone, supportDone)
        invariant Rounds(StartOf(text), newline, rounds) == Logged(log, Rounds(s, newline, left))
        invariant if processedAny then FirstStep(text, 0).Some? else s == StartOf(text) && log == []
        decreases left
      {
        var t, changes := OneRound(searchIndex, matrixDone, supportDone, s);
        RoundsStep(s, newline, left, log);
        if t.Over? {
          break;
        }
        processedAny := true;
        if t.Stop? {
          return Failed(t.error), log;
        }
        if left == 0 {
          return Unfinished, log;
        }
        searchIndex, matrixDone, supportDone := t.search, matrixDone + {t.key}, supportDone + {t.key};
        s, log, left := State(lines, searchIndex, jobKeys, matrixDone, supportDone), log + changes, left - 1;
      }
      if !processedAny {
        return Failed(AnchorNotFound), log;
      }
      return Patched(lines), log;
    }
  }

  /** The result of a run whose first rounds are on record. */
  ghost function Logged(log: seq<Change>, rest: Result): Result { Result(rest.outcome, log + rest.log) }

  lemma {:induction false} NothingLogged(r: Result)
    ensures Logged([], r) == r
  {
  }

  /** What the next round adds to the record. */
  lemma {:induction false} RoundsStep(s: State, newline: nat, left: nat, log: seq<Change>)
    ensures var r, all := RoundOf(s, newline), Logged(log, Rounds(s, newline, left));
            && (r.Idle? ==> all == Result(Patched(s.lines), log))
            && (r.Broken? ==> all == Result(Failed(r.error), log))
            && (r.Done? && left == 0 ==> all == Result(Unfinished, log))
            && (r.Done? && left > 0 ==> all == Logged(log + r.log, Rounds(r.next, newline, left - 1)))
  {
    hide RoundOf;
    if RoundOf(s, newline).Done? && left > 0 {
      var a, b := RoundOf(s, newline).log, Rounds(RoundOf(s, newline).next, newline, left - 1).log;
      assert log + (a + b) == (log + a) + b;
    }
  }

  // ---------------------------------------------------------------- lemmas for the program

  lemma {:induction false} SpliceIsRead(lines: seq<Line>, a: nat, b: nat, ls: seq<Line>)
    requires a <= b <= |lines| && AllRead(lines) && AllRead(ls)
    ensures AllRead(lines[..a] + ls + lines[b..])
  {
    hide WellRead;
  }

  lemma {:induction false} AxisLinesAreRead(lines: seq<Line>, job: Bounds)
    requires InText(lines, job) && MatrixEdit(lines, job.0, job.1).Add?
    ensures AllRead(MatrixEdit(lines, job.0, job.1).lines)
  {
    hide WellRead;
  }

  lemma {:induction false} StepIsBlock(lines: seq<Line>, step: Step)
    requires AllRead(lines) && StepAt(lines, step.start) == Some(step)
    ensures step.start < step.end <= |lines| && AllRead(step.lines) && IsBlockLines(Shapes(step.lines), step.indent)
  {
    hide WellRead, StepEnd;
    assert forall k | 0 <= k < |step.lines| :: step.lines[k] == lines[step.start + k];
  }

  lemma {:induction false} RewritesRead(b: seq<Line>, step: nat)
    requires IsBlockLines(Shapes(b), step) && AllRead(b)
    ensures AllRead(RewriteLines(b, step))
  {
    hide *;
    RewrittenSteps.RewrittenIsStep(b, step);
  }

  lemma {:induction false} RewritingIs(lines: seq<Line>, step: Step)
    requires step.start <= step.end <= |lines|
    ensures Rewriting(lines, step) == lines[..step.start] + RewriteLines(step.lines, step.indent) + lines[step.end..]
  {
    hide RewriteLines;
  }

  lemma {:induction false} InstallRefreshExtent(lines: seq<Line>, job: Bounds)
    ensures var r := InstallRefresh(lines, job);
            r.Some? ==> job.0 < r.value.0 && RunExtent(Shapes(lines), r.value.0, r.value.1)
  {
    hide Outdated, NamesOfSteps, StepNamed, StepAt, StepName, NormalizedName, Shapes, INSTALL_STEP_NAME;
    var s := StepNamed(lines, job.0, job.1, INSTALL_STEP_NAME);
    if s.Some? && Outdated(s.value.lines).Some? {
      OutdatedExtent(lines, s.value);
    }
  }

  lemma {:induction false} NoInstallStep(lines: seq<Line>, job: Bounds)
    requires
      || INSTALL_STEP_NAME !in NamesOfSteps(lines, job.0, job.1)
      || StepNamed(lines, job.0, job.1, INSTALL_STEP_NAME).None?
      || Outdated(StepNamed(lines, job.0, job.1, INSTALL_STEP_NAME).value.lines).None?
    ensures InstallRefresh(lines, job).None? && AfterRefresh(lines, InstallRefresh(lines, job)) == lines
  {
    hide Outdated, NamesOfSteps, StepNamed, INSTALL_STEP_NAME;
  }

  lemma {:induction false} OutdatedInstallStep(lines: seq<Line>, job: Bounds, q: nat, p: nat)
    requires INSTALL_STEP_NAME in NamesOfSteps(lines, job.0, job.1)
    requires StepNamed(lines, job.0, job.1, INSTALL_STEP_NAME).Some?
    requires var s := StepNamed(lines, job.0, job.1, INSTALL_STEP_NAME).value;
             Outdated(s.lines).Some? && q == s.start + Outdated(s.lines).value.0
                 && p == s.start + Outdated(s.lines).value.1
    ensures InstallRefresh(lines, job) == Some((q, p)) && q < p <= |lines|
    ensures AfterRefresh(lines, Some((q, p))) == lines[..q] + InstallRun(lines[q].Indent()) + lines[p..]
  {
    hide Outdated, NamesOfSteps, StepNamed, StepAt, StepName, NormalizedName, InstallRun, INSTALL_STEP_NAME;
    InstallRefreshExtent(lines, job);
  }

  lemma {:induction false} OffsetStart(lines: seq<Line>, newline: nat)
    ensures OffsetAt(lines, newline, 0) == 0
  {
  }

  lemma {:induction false} OffsetNext(lines: seq<Line>, newline: nat, i: nat)
    requires i < |lines|
    ensures OffsetAt(lines, newline, i + 1) == OffsetAt(lines, newline, i) + lines[i].Indent() + |lines[i].text|
            + newline
  {
  }

  lemma {:induction false} OffsetsPastEnd(lines: seq<Line>, newline: nat, i: nat)
    requires |lines| <= i
    ensures OffsetAt(lines, newline, i) == OffsetAt(lines, newline, |lines|) + (i - |lines|) * newline
    decreases i
  {
    if |lines| < i {
      OffsetsPastEnd(lines, newline, i - 1);
      assert (i - |lines|) * newline == (i - 1 - |lines|) * newline + newline;
    }
  }
}
