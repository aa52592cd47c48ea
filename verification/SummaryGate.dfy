/** The gate behind the pytest stages: it scores their counts and decides whether the build may pass. */
module SummaryGate {

  datatype Counts = Counts(passed: nat, failed: nat, xfailed: nat, xpassed: nat, skipped: nat, warnings: nat,
                           deselected: nat, rerun: nat) {
    function Plus(c: Counts): Counts {
      Counts(passed + c.passed, failed + c.failed, xfailed + c.xfailed, xpassed + c.xpassed, skipped + c.skipped,
             warnings + c.warnings, deselected + c.deselected, rerun + c.rerun)
    }
  }

  const NO_COUNTS := Counts(0, 0, 0, 0, 0, 0, 0, 0)

  datatype Violation =
    | ExitCodeNonzero | TestsFailed | WarningsPresent | SkipsPresent | XfailedPresent | XpassedPresent | NoTestsInStage
    | NoTestsExecuted | EvidenceShortfall | Capped(cap: Cap) | Recorded(text: string)

  datatype Cap = WarningsCap | SkipXfailCap | XpassedCap | NoTestsCap {
    function Limit(): nat {
      match this
      case WarningsCap => 90
      case SkipXfailCap => 92
      case XpassedCap => 92
      case NoTestsCap => 0
    }
  }

  /** What a stage run reports: exit code, counts, and what went wrong around it. */
  datatype Stage = Stage(returnCode: int, counts: Counts, recorded: seq<Violation>)

  /** Every test of the stage passed, there was one, and nothing went wrong. */
  predicate Clean(s: Stage) {
    && s.returnCode == 0 && s.recorded == [] && s.counts.passed > 0
    && s.counts.failed == 0 && s.counts.xfailed == 0 && s.counts.xpassed == 0 && s.counts.skipped == 0
       && s.counts.warnings == 0
  }

  /** The list with one more violation, if there is reason for it. */
  function With(violations: seq<Violation>, bad: bool, v: Violation): (r: seq<Violation>)
    ensures |r| == |violations| + if bad then 1 else 0
  {
    if bad then violations + [v] else violations
  }

  function Gated(violations: seq<Violation>, returnCode: int, c: Counts): seq<Violation> {
    var v1 := With(violations, returnCode != 0, ExitCodeNonzero);
    var v2 := With(v1, c.failed > 0, TestsFailed);
    var v3 := With(v2, c.warnings > 0, WarningsPresent);
    var v4 := With(v3, c.skipped > 0, SkipsPresent);
    var v5 := With(v4, c.xfailed > 0, XfailedPresent);
    var v6 := With(v5, c.xpassed > 0, XpassedPresent);
    With(v6, c.passed + c.failed + c.xfailed + c.xpassed + c.skipped == 0, NoTestsInStage)
  }

  /** Nothing is raised exactly for a stage where all is well. */
  lemma {:induction false} NothingRaised(violations: seq<Violation>, returnCode: int, c: Counts)
    ensures Gated(violations, returnCode, c) == violations <==> Clean(Stage(returnCode, c, []))
    ensures |violations| <= |Gated(violations, returnCode, c)|
  {
  }

  /** Which violations a stage raises. */
  lemma {:induction false} RaisedExactly(violations: seq<Violation>, returnCode: int, c: Counts, v: Violation)
    ensures v in Gated(violations, returnCode, c) <==>
            || v in violations
            || (v == ExitCodeNonzero && returnCode != 0)
            || (v == TestsFailed && c.failed > 0)
            || (v == WarningsPresent && c.warnings > 0)
            || (v == SkipsPresent && c.skipped > 0)
            || (v == XfailedPresent && c.xfailed > 0)
            || (v == XpassedPresent && c.xpassed > 0)
            || (v == NoTestsInStage && c.passed == c.failed == c.xfailed == c.xpassed == c.skipped == 0)
  {
    var v1 := With(violations, returnCode != 0, ExitCodeNonzero);
    var v2 := With(v1, c.failed > 0, TestsFailed);
    var v3 := With(v2, c.warnings > 0, WarningsPresent);
    var v4 := With(v3, c.skipped > 0, SkipsPresent);
    var v5 := With(v4, c.xfailed > 0, XfailedPresent);
    var v6 := With(v5, c.xpassed > 0, XpassedPresent);
    WithHolds(violations, returnCode != 0, ExitCodeNonzero, v);
    WithHolds(v1, c.failed > 0, TestsFailed, v);
    WithHolds(v2, c.warnings > 0, WarningsPresent, v);
    WithHolds(v3, c.skipped > 0, SkipsPresent, v);
    WithHolds(v4, c.xfailed > 0, XfailedPresent, v);
    WithHolds(v5, c.xpassed > 0, XpassedPresent, v);
    WithHolds(v6, c.passed + c.failed + c.xfailed + c.xpassed + c.skipped == 0, NoTestsInStage, v);
    hide With;
  }

  lemma {:induction false} WithHolds(violations: seq<Violation>, bad: bool, v: Violation, w: Violation)
    ensures w in With(violations, bad, v) <==> w in violations || (bad && w == v)
  {
  }

  class StageResult {
    const returnCode: int
    const counts: Counts
    var violations: seq<Violation>

    constructor (returnCode: int, counts: Counts)
      ensures this.returnCode == returnCode && this.counts == counts && violations == []
    {
      this.returnCode, this.counts, this.violations := returnCode, counts, [];
    }

    /** Appends what the exit code and the counts give away. */
    method ApplyStageGates()
      modifies this
      ensures violations == Gated(old(violations), returnCode, counts)
    {
      if returnCode != 0 {
        violations := violations + [ExitCodeNonzero];
      }
      if counts.failed > 0 {
        violations := violations + [TestsFailed];
      }
      if counts.warnings > 0 {
        violations := violations + [WarningsPresent];
      }
      if counts.skipped > 0 {
        violations := violations + [SkipsPresent];
      }
      if counts.xfailed > 0 {
        violations := violations + [XfailedPresent];
      }
      if counts.xpassed > 0 {
        violations := violations + [XpassedPresent];
      }
      var executed := counts.passed + counts.failed + counts.xfailed + counts.xpassed + counts.skipped;
      if executed == 0 {
        violations := violations + [NoTestsInStage];
      }
    }
  }

  // ---------------------------------------------------------------- counting

  function Total(stages: seq<Stage>): Counts {
    if stages == [] then NO_COUNTS else Total(stages[..|stages| - 1]).Plus(stages[|stages| - 1].counts)
  }

  method AggregateCounts(stages: seq<Stage>) returns (aggregate: Counts)
    ensures aggregate == Total(stages)
  {
    aggregate := NO_COUNTS;
    for i := 0 to |stages|
      invariant aggregate == Total(stages[..i])
    {
      assert stages[..i + 1][..i] == stages[..i];
      aggregate := aggregate.Plus(stages[i].counts);
    }
    assert stages[..|stages|] == stages;
  }

  /** The total of one stage is its counts, and totals add up. */
  lemma {:induction false} TotalsAdd(a: seq<Stage>, s: Stage)
    ensures Total([s]) == s.counts && Total(a + [s]) == Total(a).Plus(s.counts)
  {
    assert [s][..0] == [] && (a + [s])[..|a|] == a;
    assert NO_COUNTS.Plus(s.counts) == s.counts;
  }

  /** A total is zero only if every stage contributes nothing. */
  lemma {:induction false} TotalsVanish(stages: seq<Stage>)
    ensures Total(stages).passed > 0 <==> exists k | 0 <= k < |stages| :: stages[k].counts.passed > 0
    ensures Total(stages).warnings > 0 <==> exists k | 0 <= k < |stages| :: stages[k].counts.warnings > 0
    ensures Total(stages).skipped > 0 <==> exists k | 0 <= k < |stages| :: stages[k].counts.skipped > 0
    ensures Total(stages).xfailed > 0 <==> exists k | 0 <= k < |stages| :: stages[k].counts.xfailed > 0
    ensures Total(stages).xpassed > 0 <==> exists k | 0 <= k < |stages| :: stages[k].counts.xpassed > 0
  {
    if stages != [] {
      TotalsVanish(stages[..|stages| - 1]);
    }
  }

  // ---------------------------------------------------------------- evidence

  datatype Evidence = Determinism | MiddlewareOrder | CsvSafety | XlsxSafety | RetryMetrics

  /** Evidence that was not given has a fixed text; only an empty text that was given counts as missing. */
  predicate Missing(given: map<Evidence, string>, e: Evidence) { e in given && given[e] == "" }

  const INTEGRATION := [MiddlewareOrder, CsvSafety, XlsxSafety, RetryMetrics]

  /** At most one piece of integration evidence was given as empty. */
  predicate Evidenced(given: map<Evidence, string>) {
    forall j, k | 0 <= j < k < 4 :: !Missing(given, INTEGRATION[j]) || !Missing(given, INTEGRATION[k])
  }

  /** The pieces of integration evidence that were given as empty. Evidence of determinism is not among them. */
  function MissingPieces(given: map<Evidence, string>): set<Evidence> {
    set e | e in {MiddlewareOrder, CsvSafety, XlsxSafety, RetryMetrics} && e in given && given[e] == ""
  }

  lemma {:induction false} EvidencedExactly(given: map<Evidence, string>)
    ensures Evidenced(given) <==> |MissingPieces(given)| <= 1
  {
    var ms := MissingPieces(given);
    assert INTEGRATION[0] == MiddlewareOrder && INTEGRATION[1] == CsvSafety;
    assert INTEGRATION[2] == XlsxSafety && INTEGRATION[3] == RetryMetrics;
    if !Evidenced(given) {
      var j, k :| 0 <= j < k < 4 && Missing(given, INTEGRATION[j]) && Missing(given, INTEGRATION[k]);
      assert {INTEGRATION[j], INTEGRATION[k]} <= ms;
      SmallerSet({INTEGRATION[j], INTEGRATION[k]}, ms);
    } else if ms != {} {
      var e :| e in ms;
      forall f | f in ms
        ensures f == e
      {
        assert Missing(given, e) && Missing(given, f);
      }
      assert ms == {e};
    }
  }

  lemma {:induction false} SmallerSet(a: set<Evidence>, b: set<Evidence>)
    requires a <= b
    ensures |a| <= |b|
  {
    assert b == a + (b - a);
  }

  method CountEvidence(given: map<Evidence, string>) returns (n: nat)
    ensures n >= 3 <==> Evidenced(given)
  {
    hide Missing;
    n := 0;
    ghost var missing: seq<nat> := [];
    for i := 0 to 4
      invariant n + |missing| == i
      invariant forall k | 0 <= k < |missing| :: missing[k] < i && Missing(given, INTEGRATION[missing[k]])
      invariant forall j, k | 0 <= j < k < |missing| :: missing[j] < missing[k]
      invariant forall k: nat | k < i :: k in missing || !Missing(given, INTEGRATION[k])
    {
      if !Missing(given, INTEGRATION[i]) {
        n := n + 1;
      } else {
        missing := missing + [i];
      }
    }
    if n < 3 {
      assert missing[0] < missing[1];
    }
  }

  // ---------------------------------------------------------------- scoring

  datatype Level = Excellent | Good | Average | Poor

  datatype Scoring = Scoring(perf: nat, excel: nat, caps: seq<Cap>, violations: set<Violation>, total: int,
      level: Level, exitCode: nat)

  function Min(a: int, b: int): int { if a <= b then a else b }

  function Max(a: int, b: int): int { if a <= b then b else a }

  function LevelOf(total: int): Level {
    if total >= 95 then Excellent else if total >= 85 then Good else if total >= 70 then Average else Poor
  }

  /** Where the levels begin. */
  lemma {:induction false} LevelsBegin(total: int)
    ensures LevelOf(95) == Excellent && LevelOf(94) == LevelOf(85) == Good
    ensures LevelOf(84) == LevelOf(70) == Average && LevelOf(69) == Poor
    ensures total > 95 ==> LevelOf(total) == LevelOf(95)
    ensures 85 < total < 94 ==> LevelOf(total) == LevelOf(85)
    ensures 70 < total < 84 ==> LevelOf(total) == LevelOf(70)
    ensures total < 69 ==> LevelOf(total) == LevelOf(69)
  {
  }

  function Limited(total: int, caps: seq<Cap>): int {
    if caps == [] then total else Min(Limited(total, caps[..|caps| - 1]), caps[|caps| - 1].Limit())
  }

  method LowestCap(total: int, caps: seq<Cap>) returns (r: int)
    ensures r == Limited(total, caps)
  {
    r := total;
    for i := 0 to |caps|
      invariant r == Limited(total, caps[..i])
    {
      assert caps[..i + 1][..i] == caps[..i];
      r := Min(r, caps[i].Limit());
    }
    assert caps[..|caps|] == caps;
  }

  lemma {:induction false} LimitedIsLowest(total: int, caps: seq<Cap>)
    ensures Limited(total, caps) <= total && forall c | c in caps :: Limited(total, caps) <= c.Limit()
    ensures Limited(total, caps) == total || exists c | c in caps :: Limited(total, caps) == c.Limit()
  {
    if caps != [] {
      LimitedIsLowest(total, caps[..|caps| - 1]);
      assert caps == caps[..|caps| - 1] + [caps[|caps| - 1]];
    }
  }

  method CapsFor(aggregate: Counts) returns (caps: seq<Cap>)
    ensures WarningsCap in caps <==> aggregate.warnings > 0
    ensures SkipXfailCap in caps <==> aggregate.skipped > 0 || aggregate.xfailed > 0
    ensures XpassedCap in caps <==> aggregate.xpassed > 0
    ensures NoTestsCap in caps <==> aggregate.passed == 0
  {
    caps := [];
    if aggregate.warnings > 0 {
      caps := caps + [WarningsCap];
    }
    if aggregate.skipped > 0 || aggregate.xfailed > 0 {
      caps := caps + [SkipXfailCap];
    }
    if aggregate.xpassed > 0 {
      caps := caps + [XpassedCap];
    }
    if aggregate.passed <= 0 {
      caps := caps + [NoTestsCap];
    }
  }

  /** The score the counts, the evidence and the violations call for. */
  function DueTotal(aggregate: Counts, violated: bool, evidenced: bool): int {
    if aggregate.passed == 0 then 0
    else if aggregate.warnings > 0 then 90
    else if aggregate.skipped > 0 || aggregate.xfailed > 0 || aggregate.xpassed > 0 then 92
    else if !evidenced then 94
    else if violated then 95
    else 100
  }

  method ComputeScoring(aggregate: Counts, stageViolations: seq<seq<Violation>>, given: map<Evidence, string>)
    returns (r: Scoring)
    ensures r.total == DueTotal(aggregate, exists k | 0 <= k < |stageViolations| ::
            stageViolations[k] != [], Evidenced(given))
    ensures r.total == 100 <==> r.exitCode == 0
    ensures r.total <= 95 <==> r.exitCode == 1
    ensures r.level == LevelOf(r.total)
    ensures forall k | 0 <= k < |stageViolations| :: forall v | v in stageViolations[k] :: v in r.violations
    ensures r.violations == {} <==> r.exitCode == 0
    ensures r.perf == r.excel == if Evidenced(given) then 40 else 37
  {
    hide Evidenced;
    var caps := CapsFor(aggregate);
    var violations: set<Violation> := {};
    for i := 0 to |stageViolations|
      invariant forall k | 0 <= k < i :: forall v | v in stageViolations[k] :: v in violations
      invariant violations != {} <==> exists k | 0 <= k < i :: stageViolations[k] != []
    {
      assert stageViolations[i] != [] ==> stageViolations[i][0] in stageViolations[i];
      violations := violations + set v | v in stageViolations[i];
    }
    ghost var fromStages := violations != {};
    if aggregate.passed <= 0 {
      violations := violations + {NoTestsExecuted};
    }
    var perfDeduction, excelDeduction := 0, 0;
    var evidence := CountEvidence(given);
    if evidence < 3 {
      perfDeduction, excelDeduction := -3, -3;
      violations := violations + {EvidenceShortfall};
    }
    var perf, excel := Max(0, Min(40, 40 + perfDeduction)), Max(0, Min(40, 40 + excelDeduction));
    var total := Min(perf + excel + 0 + 5 + 15, 100);
    violations := violations + set c | c in caps :: Capped(c);
    assert caps != [] ==> caps[0] in caps && Capped(caps[0]) in violations;
    ghost var base := total;
    total := LowestCap(total, caps);
    LimitedIsLowest(base, caps);
    assert caps != [] ==> caps[0] in caps;
    var flag := caps != [] || perfDeduction < 0 || excelDeduction < 0 || violations != {};
    if flag && caps == [] {
      total := Min(total, 95);
    }
    var level := LevelOf(total);
    if flag {
      r := Scoring(perf, excel, caps, violations, total, level, 1);
    } else {
      r := Scoring(perf, excel, caps, violations, 100, level, 0);
    }
  }

  // ---------------------------------------------------------------- the whole gate

  /** A test was skipped, or failed or passed against expectation. */
  predicate SomeSkipped(stages: seq<Stage>) {
    exists k | 0 <= k < |stages| ::
      stages[k].counts.skipped > 0 || stages[k].counts.xfailed > 0 || stages[k].counts.xpassed > 0
  }

  /** Gates every stage, adds up the counts, and scores them. */
  method Gate(stages: seq<Stage>, given: map<Evidence, string>) returns (r: Scoring)
    ensures r.exitCode == 0 <==> stages != [] && (forall k | 0 <= k < |stages| :: Clean(stages[k])) && Evidenced(given)
    ensures r.total == 100 <==> r.exitCode == 0
    ensures r.exitCode != 0 ==> r.total <= 95
    ensures var passed := exists k | 0 <= k < |stages| :: stages[k].counts.passed > 0;
            var warned := exists k | 0 <= k < |stages| :: stages[k].counts.warnings > 0;
            var unclean := exists k | 0 <= k < |stages| :: !Clean(stages[k]);
            r.total == if !passed then 0 else if warned then 90 else if SomeSkipped(stages) then 92
                       else if !Evidenced(given) then 94 else if unclean then 95 else 100
    ensures r.level == Excellent <==> r.total >= 95
    ensures r.level == Poor <==> r.total == 0
    ensures r.level == Good <==> 0 < r.total < 95
  {
    hide Evidenced, Gated;
    var violations: seq<seq<Violation>> := [];
    for i := 0 to |stages|
      invariant |violations| == i
      invariant forall k | 0 <= k < i :: violations[k] == [] <==> Clean(stages[k])
    {
      var result := new StageResult(stages[i].returnCode, stages[i].counts);
      result.ApplyStageGates();
      NothingRaised([], stages[i].returnCode, stages[i].counts);
      violations := violations + [result.violations + stages[i].recorded];
    }
    var aggregate := AggregateCounts(stages);
    r := ComputeScoring(aggregate, violations, given);
    TotalsVanish(stages);
  }
}
