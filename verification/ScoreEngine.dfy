/** The score of a build: points per axis, deductions, caps, and the gate that keeps a flawed build from a full
    score. */
module ScoreEngines {
  import opened PyStrings

  datatype Axis = Performance | Excel | Gui | Security

  datatype Deduction = Deduction(axis: Axis, amount: real)

  datatype CapReason = WarningsDetected(n: nat) | SkipsDetected(n: nat) | ProbeOrder | RedisMissing(text: string)
                     | LauncherSkip | ActionsOutstanding | NoHundredGate

  datatype Cap = Cap(limit: int, reason: CapReason)

  datatype Feature = StateCleanup | RetryMechanism | TimingControls | MiddlewareOrder | DebugHelpers

  datatype Action = FixFailures | RemoveWarnings | ReviewEnvironment | AddFeature(feature: Feature) | FixMiddlewareOrder
                  | StartRedis | CompleteEvidence | AddIntegrationEvidence

  datatype Reason = Failures | Warnings | Skips | MissingFeature(feature: Feature) | MiddlewareProbe | Redis
                  | MissingEvidence | IntegrationEvidence | Launcher | OpenActions

  datatype Spec = StableSortKeys | StateHygiene | ChunkingFilenames | ExcelSafety | SnapshotDelta | AtomicFinalize
                | CounterYearCode | SecurityAccess | ObservabilityMetrics | SloBaseline | QualityGates {
    function Axis(): Axis {
      match this
      case ChunkingFilenames | ExcelSafety | AtomicFinalize => Excel
      case SecurityAccess | ObservabilityMetrics => Security
      case _ => Performance
    }
  }

  function Specs(): seq<Spec> {
    [StableSortKeys, StateHygiene, ChunkingFilenames, ExcelSafety, SnapshotDelta, AtomicFinalize,
     CounterYearCode, SecurityAccess, ObservabilityMetrics, SloBaseline, QualityGates]
  }

  datatype Summary = Summary(failed: nat, warnings: nat, skipped: nat, xfailed: nat)

  /** The calls that feed the engine before it is asked for the score. */
  datatype Call =
    | PytestResult(summary: Summary, returnCode: int)
    | FeatureFlags(present: set<Feature>)
    | Probe(success: Option<bool>)
    | TodoCount(n: int)
    | RedisState(error: string)
    | EvidenceMatrix(have: set<Spec>, integration: nat)
    | SkippedByLauncher

  function Lesser(a: real, b: real): real { if a <= b then a else b }

  function Greater(a: real, b: real): real { if a <= b then b else a }

  function MaxPoints(gui: bool, a: Axis): real {
    match a
    case Performance => if gui then 40.0 else 49.0
    case Excel => if gui then 40.0 else 46.0
    case Gui => if gui then 15.0 else 0.0
    case Security => 5.0
  }

  /** The points left on an axis: between zero and its maximum. */
  function Clamped(max: real, deducted: real): real { Lesser(max, Greater(0.0, max - deducted)) }

  // ---------------------------------------------------------------- what a call amounts to

  /** Points taken from each axis, the lowest cap (100 for none), and whether actions or No-100 reasons are on
      record. */
  datatype Effect = Effect(perf: real, excel: real, security: real, limit: int, acts: bool, barred: bool) {
    function Join(e: Effect): Effect {
      Effect(perf + e.perf, excel + e.excel, security + e.security, if limit <= e.limit then limit else e.limit,
             acts || e.acts, barred || e.barred)
    }
  }

  const NOTHING := Effect(0.0, 0.0, 0.0, 100, false, false)

  function Taking(a: Axis, amount: real): Effect {
    match a
    case Performance => NOTHING.(perf := amount)
    case Excel => NOTHING.(excel := amount)
    case Security => NOTHING.(security := amount)
    case Gui => NOTHING
  }

  function FailureEffect(failed: nat, returnCode: int): Effect {
    if failed == 0 && returnCode == 0 then NOTHING
    else Effect(15.0 + 5.0 * (if failed > 0 then failed else 1) as real, 0.0, 0.0, 100, true, true)
  }

  function WarningEffect(warnings: nat): Effect {
    if warnings == 0 then NOTHING else Effect(Lesser(10.0, 2.0 * warnings as real), 0.0, 0.0, 90, true, true)
  }

  function SkipEffect(skipped: nat, xfailed: nat): Effect {
    if skipped == 0 && xfailed == 0 then NOTHING else Effect(0.0, 0.0, 0.0, 92, false, true)
  }

  function PytestEffect(s: Summary, returnCode: int): Effect {
    FailureEffect(s.failed, returnCode).Join(WarningEffect(s.warnings)).Join(SkipEffect(s.skipped, s.xfailed))
  }

  function FeatureEffect(f: Feature): Effect {
    match f
    case StateCleanup => Effect(8.0, 0.0, 0.0, 100, true, true)
    case RetryMechanism => Effect(6.0, 0.0, 0.0, 100, true, true)
    case TimingControls => Effect(5.0, 0.0, 0.0, 100, true, true)
    case MiddlewareOrder => Effect(10.0, 0.0, 0.0, 100, true, true)
    case DebugHelpers => Effect(0.0, 0.0, 1.5, 100, false, true)
  }

  function FeatureEffectUnless(present: set<Feature>, f: Feature): Effect {
    if f in present then NOTHING else FeatureEffect(f)
  }

  function FeaturesEffect(present: set<Feature>): Effect {
    FeatureEffectUnless(present, StateCleanup).Join(FeatureEffectUnless(present, RetryMechanism))
    .Join(FeatureEffectUnless(present, TimingControls)).Join(FeatureEffectUnless(present, MiddlewareOrder))
    .Join(FeatureEffectUnless(present, DebugHelpers))
  }

  function SpecEffect(have: set<Spec>, spec: Spec): Effect {
    if spec in have then NOTHING else Taking(spec.Axis(), 3.0)
  }

  /** What the missing ones among the first `n` specifications cost. */
  function SpecsEffect(have: set<Spec>, n: nat): Effect
    requires n <= |Specs()|
  {
    if n == 0 then NOTHING else SpecsEffect(have, n - 1).Join(SpecEffect(have, Specs()[n - 1]))
  }

  predicate AllSpecs(have: set<Spec>, n: nat)
    requires n <= |Specs()|
  {
    forall k | 0 <= k < n :: Specs()[k] in have
  }

  function MissingEffect(missing: bool): Effect {
    if missing then NOTHING.(acts := true, barred := true) else NOTHING
  }

  function QuotaEffect(integration: nat): Effect {
    if integration >= 3 then NOTHING else Effect(3.0, 3.0, 0.0, 100, true, true)
  }

  function EvidenceEffect(have: set<Spec>, integration: nat): Effect {
    SpecsEffect(have, |Specs()|).Join(MissingEffect(!AllSpecs(have, |Specs()|))).Join(QuotaEffect(integration))
  }

  function EffectOf(c: Call): Effect {
    match c
    case PytestResult(s, rc) => PytestEffect(s, rc)
    case FeatureFlags(present) => FeaturesEffect(present)
    case Probe(success) => if success == Some(false) then Effect(5.0, 0.0, 0.0, 92, true, true) else NOTHING
    case TodoCount(n) => if n <= 0 then NOTHING else Taking(Performance, Lesser(10.0, 2.0 * n as real))
    case RedisState(error) => if error == "" then NOTHING else Effect(0.0, 0.0, 0.0, 85, true, true)
    case EvidenceMatrix(have, integration) => EvidenceEffect(have, integration)
    case SkippedByLauncher => Effect(0.0, 0.0, 0.0, 92, false, true)
  }

  // ---------------------------------------------------------------- the engine

  function SumFor(ds: seq<Deduction>, a: Axis): real {
    if ds == [] then 0.0
    else SumFor(ds[..|ds| - 1], a) + if ds[|ds| - 1].axis == a then ds[|ds| - 1].amount else 0.0
  }

  function LowestLimit(caps: seq<Cap>): int {
    if caps == [] then 100
    else if LowestLimit(caps[..|caps| - 1]) <= caps[|caps| - 1].limit then LowestLimit(caps[..|caps| - 1])
        else caps[|caps| - 1].limit
  }

  function RawTotal(gui: bool, e: Effect): real {
    Clamped(MaxPoints(gui, Performance), e.perf) + Clamped(MaxPoints(gui, Excel), e.excel)
    + MaxPoints(gui, Gui) + Clamped(MaxPoints(gui, Security), e.security)
  }

  /** The score that the accumulated effect comes to: open actions cap it at 95. */
  function FinalTotal(gui: bool, e: Effect): real {
    Lesser(RawTotal(gui, e), (if e.acts && 95 <= e.limit then 95 else e.limit) as real)
  }

  datatype Level = Excellent | Good | Average | Poor

  lemma {:induction false} JoinAssociates(a: Effect, b: Effect, c: Effect)
    ensures a.Join(b).Join(c) == a.Join(b.Join(c))
  {
  }

  lemma {:induction false} JoinNothing(e: Effect)
    ensures e.limit <= 100 ==> e.Join(NOTHING) == e
    ensures e.acts && e.limit <= 100 ==> e.Join(NOTHING.(acts := true)) == e
  {
  }

  lemma {:induction false} CostJoins(start: Effect, t: Effect, act: bool)
    ensures (if act then start.Join(t).Join(NOTHING.(acts := true)) else start.Join(t)).Join(NOTHING.(barred := true))
            == start.Join(t.Join(Effect(0.0, 0.0, 0.0, 100, act, true)))
  {
  }

  lemma {:induction false} FailureActs(start: Effect, s: Summary, returnCode: int)
    requires returnCode != 0
    ensures start.Join(PytestEffect(s, returnCode)).acts
  {
    hide WarningEffect, SkipEffect;
  }

  lemma {:induction false} FeatureCosts()
    ensures FeatureEffect(StateCleanup) == Taking(Performance, 8.0).Join(Effect(0.0, 0.0, 0.0, 100, true, true))
    ensures FeatureEffect(RetryMechanism) == Taking(Performance, 6.0).Join(Effect(0.0, 0.0, 0.0, 100, true, true))
    ensures FeatureEffect(TimingControls) == Taking(Performance, 5.0).Join(Effect(0.0, 0.0, 0.0, 100, true, true))
    ensures FeatureEffect(MiddlewareOrder) == Taking(Performance, 10.0).Join(Effect(0.0, 0.0, 0.0, 100, true, true))
    ensures FeatureEffect(DebugHelpers) == Taking(Security, 1.5).Join(Effect(0.0, 0.0, 0.0, 100, false, true))
  {
  }

  /** The list with `x` on it, once. */
  function Note<T(==,!new)>(xs: seq<T>, x: T): (r: seq<T>)
    ensures xs <= r && forall y :: y in r <==> y in xs || y == x
  {
    if x in xs then xs else xs + [x]
  }

  function NoteIf<T(==,!new)>(note: bool, xs: seq<T>, x: T): seq<T> { if note then Note(xs, x) else xs }

  /** The order of the middlewares is one action, whether the feature or the probe asks for it. */
  function FeatureAction(f: Feature): Action { if f == MiddlewareOrder then FixMiddlewareOrder else AddFeature(f) }

  function Place(spec: Spec): (k: nat)
    ensures k < 11 && Specs()[k] == spec
  {
    match spec
    case StableSortKeys => 0
    case StateHygiene => 1
    case ChunkingFilenames => 2
    case ExcelSafety => 3
    case SnapshotDelta => 4
    case AtomicFinalize => 5
    case CounterYearCode => 6
    case SecurityAccess => 7
    case ObservabilityMetrics => 8
    case SloBaseline => 9
    case QualityGates => 10
  }

  /** Every specification is asked for. */
  lemma {:induction false} EverySpec(have: set<Spec>)
    ensures AllSpecs(have, |Specs()|) <==> forall spec: Spec :: spec in have
  {
    assert |Specs()| == 11;
    hide Specs, Place;
    if forall spec: Spec :: spec in have {
    } else {
      var spec: Spec :| spec !in have;
      var k := Place(spec);
      assert Specs()[k] !in have;
    }
  }

  class ScoreEngine {
    const gui: bool
    var performance: real
    var excel: real
    var security: real
    var deductions: seq<Deduction>
    var caps: seq<Cap>
    var actions: seq<Action>
    var reasons: seq<Reason>

    /** Deductions are positive and on axes with points to lose, caps are below 100, and no reason against a full score
        is on record without one of the two. */
    ghost predicate Valid()
      reads this
    {
      && performance == SumFor(deductions, Performance) && excel == SumFor(deductions, Excel)
         && security == SumFor(deductions, Security)
      && (forall k | 0 <= k < |deductions| :: deductions[k].amount > 0.0 && deductions[k].axis != Gui)
      && (forall k | 0 <= k < |caps| :: 0 <= caps[k].limit < 100)
      && LowestLimit(caps) <= 100
      && (reasons != [] ==> deductions != [] || caps != [])
    }

    function Effects(): (e: Effect)
      reads this
    {
      Effect(performance, excel, security, LowestLimit(caps), actions != [], reasons != [])
    }

    constructor (gui: bool)
      ensures Valid() && this.gui == gui && Effects() == NOTHING && deductions == [] && caps == []
      ensures actions == [] && reasons == []
    {
      this.gui := gui;
      performance, excel, security := 0.0, 0.0, 0.0;
      deductions, caps, actions, reasons := [], [], [], [];
    }

    method Deduct(a: Axis, amount: real)
      requires Valid() && amount > 0.0 && a != Gui
      modifies `performance, `excel, `security, `deductions
      ensures Valid() && Effects() == old(Effects()).Join(Taking(a, amount))
      ensures deductions == old(deductions) + [Deduction(a, amount)]
    {
      hide LowestLimit, SumFor;
      SumAppend(deductions, Deduction(a, amount));
      match a {
        case Performance => performance := performance + amount;
        case Excel => excel := excel + amount;
        case Security => security := security + amount;
      }
      deductions := deductions + [Deduction(a, amount)];
    }

    method AddCap(limit: int, reason: CapReason)
      requires Valid() && 0 <= limit < 100
      modifies `caps
      ensures Valid() && Effects() == old(Effects()).Join(NOTHING.(limit := limit))
      ensures caps == Note(old(caps), Cap(limit, reason))
    {
      hide SumFor;
      if Cap(limit, reason) !in caps {
        caps := caps + [Cap(limit, reason)];
        assert caps[..|caps| - 1] == old(caps);
      } else {
        LimitIsLowest(caps, Cap(limit, reason));
      }
    }

    method NextAction(action: Action)
      requires Valid()
      modifies `actions
      ensures Valid() && Effects() == old(Effects()).Join(NOTHING.(acts := true))
      ensures actions == Note(old(actions), action)
    {
      hide SumFor, LowestLimit;
      if action !in actions {
        actions := actions + [action];
      }
    }

    method RecordNo100(reason: Reason)
      requires Valid() && (deductions != [] || caps != [])
      modifies `reasons
      ensures Valid() && Effects() == old(Effects()).Join(NOTHING.(barred := true))
      ensures reasons == Note(old(reasons), reason)
    {
      hide SumFor, LowestLimit;
      if reason !in reasons {
        reasons := reasons + [reason];
      }
    }

    method ApplyFailures(failed: nat, returnCode: int)
      requires Valid()
      modifies this
      ensures Valid() && Effects() == old(Effects()).Join(FailureEffect(failed, returnCode))
      ensures caps == old(caps) && actions == NoteIf(failed > 0 || returnCode != 0, old(actions), FixFailures)
      ensures reasons == NoteIf(failed > 0 || returnCode != 0, old(reasons), Failures)
    {
      hide SumFor, LowestLimit;
      if failed > 0 || returnCode != 0 {
        Deduct(Performance, 15.0 + 5.0 * (if failed > 0 then failed else 1) as real);
        NextAction(FixFailures);
        RecordNo100(Failures);
      }
    }

    method ApplyWarnings(warnings: nat)
      requires Valid()
      modifies this
      ensures Valid() && Effects() == old(Effects()).Join(WarningEffect(warnings))
      ensures caps == NoteIf(warnings > 0, old(caps), Cap(90, WarningsDetected(warnings)))
      ensures actions == NoteIf(warnings > 0, old(actions), RemoveWarnings)
      ensures reasons == NoteIf(warnings > 0, old(reasons), Warnings)
    {
      hide SumFor, LowestLimit;
      if warnings > 0 {
        Deduct(Performance, Lesser(10.0, 2.0 * warnings as real));
        AddCap(90, WarningsDetected(warnings));
        NextAction(RemoveWarnings);
        RecordNo100(Warnings);
      }
    }

    method ApplySkips(skipped: nat, xfailed: nat)
      requires Valid()
      modifies `caps, `reasons
      ensures Valid() && Effects() == old(Effects()).Join(SkipEffect(skipped, xfailed))
      ensures caps == NoteIf(skipped > 0 || xfailed > 0, old(caps), Cap(92, SkipsDetected(skipped + xfailed)))
      ensures reasons == NoteIf(skipped > 0 || xfailed > 0, old(reasons), Skips)
    {
      hide SumFor, LowestLimit;
      if skipped > 0 || xfailed > 0 {
        AddCap(92, SkipsDetected(skipped + xfailed));
        RecordNo100(Skips);
      }
    }

    method ApplyPytestResult(s: Summary, returnCode: int)
      requires Valid()
      modifies this
      ensures Valid() && Effects() == old(Effects()).Join(PytestEffect(s, returnCode))
      ensures caps == NoteIf(s.skipped > 0 || s.xfailed > 0,
                             NoteIf(s.warnings > 0, old(caps), Cap(90, WarningsDetected(s.warnings))),
                             Cap(92, SkipsDetected(s.skipped + s.xfailed)))
      ensures actions == NoteIf(returnCode != 0 && s.failed == 0,
                                NoteIf(s.warnings > 0,
                                       NoteIf(s.failed > 0 || returnCode != 0, old(actions), FixFailures),
                                       RemoveWarnings),
                                ReviewEnvironment)
      ensures reasons == NoteIf(s.skipped > 0 || s.xfailed > 0,
                                NoteIf(s.warnings > 0,
                                       NoteIf(s.failed > 0 || returnCode != 0, old(reasons), Failures), Warnings),
                                Skips)
    {
      hide Valid, Effects, FailureEffect, WarningEffect, SkipEffect, Effect.Join;
      var start := Effects();
      ApplyFailures(s.failed, returnCode);
      ApplyWarnings(s.warnings);
      JoinAssociates(start, FailureEffect(s.failed, returnCode), WarningEffect(s.warnings));
      ApplySkips(s.skipped, s.xfailed);
      JoinAssociates(start, FailureEffect(s.failed, returnCode).Join(WarningEffect(s.warnings)),
          SkipEffect(s.skipped, s.xfailed));
      if returnCode != 0 && s.failed == 0 {
        FailureActs(start, s, returnCode);
        EffectsWithinHundred();
        NextAction(ReviewEnvironment);
        JoinNothing(start.Join(PytestEffect(s, returnCode)));
      }
    }

    lemma EffectsWithinHundred()
      requires Valid()
      ensures Effects().limit <= 100
    {
      hide SumFor, LowestLimit;
    }

    method Ensure(present: set<Feature>, f: Feature, a: Axis, amount: real, act: bool)
      requires Valid() && a != Gui && amount > 0.0
      requires FeatureEffect(f) == Taking(a, amount).Join(Effect(0.0, 0.0, 0.0, 100, act, true))
      modifies this
      ensures Valid() && Effects() == old(Effects()).Join(FeatureEffectUnless(present, f))
      ensures deductions == old(deductions) + (if f in present then [] else [Deduction(a, amount)])
      ensures caps == old(caps) && actions == NoteIf(f !in present && act, old(actions), FeatureAction(f))
      ensures reasons == NoteIf(f !in present, old(reasons), MissingFeature(f))
    {
      hide LowestLimit, SumFor, Effects, FeatureEffect, Taking, Effect.Join;
      if f in present {
        EffectsWithinHundred();
        JoinNothing(Effects());
        return;
      }
      CostJoins(Effects(), Taking(a, amount), act);
      Deduct(a, amount);
      if act {
        NextAction(FeatureAction(f));
      }
      RecordNo100(MissingFeature(f));
    }

    method ApplyFeatureFlags(present: set<Feature>)
      requires Valid()
      modifies this
      ensures Valid() && Effects() == old(Effects()).Join(FeaturesEffect(present))
      ensures caps == old(caps)
      ensures reasons == NoteIf(DebugHelpers !in present,
                                NoteIf(MiddlewareOrder !in present,
                                       NoteIf(TimingControls !in present,
                                              NoteIf(RetryMechanism !in present,
                                                     NoteIf(StateCleanup !in present, old(reasons),
                                                            MissingFeature(StateCleanup)),
                                                     MissingFeature(RetryMechanism)),
                                              MissingFeature(TimingControls)),
                                       MissingFeature(MiddlewareOrder)),
                                MissingFeature(DebugHelpers))
      ensures actions == NoteIf(MiddlewareOrder !in present,
                                NoteIf(TimingControls !in present,
                                       NoteIf(RetryMechanism !in present,
                                              NoteIf(StateCleanup !in present, old(actions),
                                                     AddFeature(StateCleanup)),
                                              AddFeature(RetryMechanism)),
                                       AddFeature(TimingControls)),
                                FixMiddlewareOrder)
    {
      FeatureCosts();
      hide Valid, Effects, FeatureEffectUnless, FeatureEffect, Taking, Effect.Join;
      var start := Effects();
      Ensure(present, StateCleanup, Performance, 8.0, true);
      var e := FeatureEffectUnless(present, StateCleanup);
      Ensure(present, RetryMechanism, Performance, 6.0, true);
      JoinAssociates(start, e, FeatureEffectUnless(present, RetryMechanism));
      e := e.Join(FeatureEffectUnless(present, RetryMechanism));
      Ensure(present, TimingControls, Performance, 5.0, true);
      JoinAssociates(start, e, FeatureEffectUnless(present, TimingControls));
      e := e.Join(FeatureEffectUnless(present, TimingControls));
      Ensure(present, MiddlewareOrder, Performance, 10.0, true);
      JoinAssociates(start, e, FeatureEffectUnless(present, MiddlewareOrder));
      e := e.Join(FeatureEffectUnless(present, MiddlewareOrder));
      Ensure(present, DebugHelpers, Security, 1.5, false);
      JoinAssociates(start, e, FeatureEffectUnless(present, DebugHelpers));
    }

    method ApplyMiddlewareProbe(success: Option<bool>)
      requires Valid()
      modifies this
      ensures Valid() && Effects() == old(Effects()).Join(EffectOf(Probe(success)))
      ensures caps == NoteIf(success == Some(false), old(caps), Cap(92, ProbeOrder))
      ensures actions == NoteIf(success == Some(false), old(actions), FixMiddlewareOrder)
      ensures reasons == NoteIf(success == Some(false), old(reasons), MiddlewareProbe)
    {
      hide LowestLimit, SumFor;
      if success == None || success.value {
        return;
      }
      Deduct(Performance, 5.0);
      AddCap(92, ProbeOrder);
      NextAction(FixMiddlewareOrder);
      RecordNo100(MiddlewareProbe);
    }

    method ApplyTodoCount(n: int)
      requires Valid()
      modifies `performance, `excel, `security, `deductions
      ensures Valid() && Effects() == old(Effects()).Join(EffectOf(TodoCount(n)))
    {
      hide LowestLimit, SumFor;
      if n <= 0 {
        return;
      }
      Deduct(Performance, Lesser(10.0, 2.0 * n as real));
    }

    method ApplyState(error: string)
      requires Valid()
      modifies `caps, `actions, `reasons
      ensures Valid() && Effects() == old(Effects()).Join(EffectOf(RedisState(error)))
      ensures caps == NoteIf(error != "", old(caps), Cap(85, RedisMissing(error)))
      ensures actions == NoteIf(error != "", old(actions), StartRedis)
      ensures reasons == NoteIf(error != "", old(reasons), Redis)
    {
      hide LowestLimit, SumFor;
      if error != "" {
        AddCap(85, RedisMissing(error));
        NextAction(StartRedis);
        RecordNo100(Redis);
      }
    }

    method DeductSpec(have: set<Spec>, spec: Spec)
      requires Valid()
      modifies `performance, `excel, `security, `deductions
      ensures Valid() && Effects() == old(Effects()).Join(SpecEffect(have, spec))
      ensures if spec in have then deductions == old(deductions) else deductions != []
    {
      hide LowestLimit, SumFor;
      if spec !in have {
        Deduct(spec.Axis(), 3.0);
      }
    }

    method DeductMissingSpecs(have: set<Spec>) returns (missing: bool)
      requires Valid()
      modifies `performance, `excel, `security, `deductions
      ensures Valid() && Effects() == old(Effects()).Join(SpecsEffect(have, |Specs()|))
      ensures missing <==> !AllSpecs(have, |Specs()|)
      ensures missing ==> deductions != []
    {
      hide Valid, Effects, Specs, SpecEffect, Effect.Join;
      ghost var start := Effects();
      EffectsWithinHundred();
      JoinNothing(start);
      missing := false;
      for i := 0 to |Specs()|
        invariant Valid() && Effects() == start.Join(SpecsEffect(have, i))
        invariant missing <==> !AllSpecs(have, i)
        invariant missing ==> deductions != []
      {
        DeductSpec(have, Specs()[i]);
        JoinAssociates(start, SpecsEffect(have, i), SpecEffect(have, Specs()[i]));
        if Specs()[i] !in have {
          missing := true;
        }
      }
    }

    method ApplyQuota(integration: nat)
      requires Valid()
      modifies this
      ensures Valid() && Effects() == old(Effects()).Join(QuotaEffect(integration))
      ensures caps == old(caps) && actions == NoteIf(integration < 3, old(actions), AddIntegrationEvidence)
      ensures reasons == NoteIf(integration < 3, old(reasons), IntegrationEvidence)
    {
      hide LowestLimit, SumFor;
      if integration < 3 {
        Deduct(Performance, 3.0);
        Deduct(Excel, 3.0);
        RecordNo100(IntegrationEvidence);
        NextAction(AddIntegrationEvidence);
      }
    }

    method ApplyMissing(missing: bool)
      requires Valid() && (missing ==> deductions != [])
      modifies `actions, `reasons
      ensures Valid() && Effects() == old(Effects()).Join(MissingEffect(missing))
      ensures actions == NoteIf(missing, old(actions), CompleteEvidence)
      ensures reasons == NoteIf(missing, old(reasons), MissingEvidence)
    {
      hide LowestLimit, SumFor;
      if missing {
        NextAction(CompleteEvidence);
        RecordNo100(MissingEvidence);
      }
    }

    method ApplyEvidenceMatrix(have: set<Spec>, integration: nat)
      requires Valid()
      modifies this
      ensures Valid() && Effects() == old(Effects()).Join(EvidenceEffect(have, integration))
      ensures var missing := exists spec: Spec :: spec !in have;
              && caps == old(caps)
              && actions == NoteIf(integration < 3, NoteIf(missing, old(actions), CompleteEvidence),
                                   AddIntegrationEvidence)
              && reasons == NoteIf(integration < 3, NoteIf(missing, old(reasons), MissingEvidence),
                                   IntegrationEvidence)
    {
      hide Valid, Effects, Specs, SpecsEffect, AllSpecs, MissingEffect, QuotaEffect, Effect.Join;
      ghost var start := Effects();
      var missing := DeductMissingSpecs(have);
      EverySpec(have);
      ApplyMissing(missing);
      JoinAssociates(start, SpecsEffect(have, |Specs()|), MissingEffect(missing));
      ApplyQuota(integration);
      JoinAssociates(start, SpecsEffect(have, |Specs()|).Join(MissingEffect(missing)), QuotaEffect(integration));
    }

    method RecordLauncherSkip()
      requires Valid()
      modifies `caps, `reasons
      ensures Valid() && Effects() == old(Effects()).Join(EffectOf(SkippedByLauncher))
      ensures caps == Note(old(caps), Cap(92, LauncherSkip)) && reasons == Note(old(reasons), Launcher)
    {
      hide LowestLimit, SumFor;
      AddCap(92, LauncherSkip);
      RecordNo100(Launcher);
    }

    method Apply(c: Call)
      requires Valid()
      modifies this
      ensures Valid() && Effects() == old(Effects()).Join(EffectOf(c))
    {
      hide Valid, Effects, Effect.Join, PytestEffect, FeaturesEffect, EvidenceEffect;
      match c
      case PytestResult(s, rc) => ApplyPytestResult(s, rc);
      case FeatureFlags(present) => ApplyFeatureFlags(present);
      case Probe(success) => ApplyMiddlewareProbe(success);
      case TodoCount(n) => ApplyTodoCount(n);
      case RedisState(error) => ApplyState(error);
      case EvidenceMatrix(have, integration) => ApplyEvidenceMatrix(have, integration);
      case SkippedByLauncher => RecordLauncherSkip();
    }

    method LowestCap() returns (limit: int)
      requires caps != []
      ensures LowestLimit(caps) == if limit <= 100 then limit else 100
    {
      limit := caps[0].limit;
      assert caps[..1][..0] == [];
      for i := 1 to |caps|
        invariant LowestLimit(caps[..i]) == if limit <= 100 then limit else 100
      {
        assert caps[..i + 1][..i] == caps[..i];
        if caps[i].limit < limit {
          limit := caps[i].limit;
        }
      }
      assert caps[..|caps|] == caps;
    }

    /** The No-100 gate. */
    method GateFullScore(total: real) returns (r: real)
      requires Valid()
      modifies `caps
      ensures Valid() && r == if reasons != [] && total >= 100.0 then 99.0 else total
      ensures reasons == [] || total < 100.0 ==> caps == old(caps)
    {
      hide LowestLimit, SumFor;
      r := total;
      if reasons != [] && total >= 100.0 {
        AddCap(99, NoHundredGate);
        r := Lesser(total, 99.0);
      }
    }

    /** The score: full exactly for a build without deductions and caps. The No-100 gate never has anything to do. */
    method Finalize() returns (rawTotal: real, total: real, level: Level)
      requires Valid()
      modifies `caps, `reasons
      ensures Valid() && total == FinalTotal(gui, old(Effects())) && rawTotal == RawTotal(gui, old(Effects()))
      ensures total == 100.0 <==> deductions == [] && caps == []
      ensures reasons != [] ==> total < 100.0
      ensures total <= rawTotal <= 100.0 && forall k | 0 <= k < |caps| :: total <= caps[k].limit as real
      ensures forall c | c in caps :: c in old(caps) || c == Cap(95, ActionsOutstanding)
      ensures level == if total >= 90.0 then Excellent else if total >= 75.0 then Good
              else if total >= 60.0 then Average else Poor
    {
      hide LowestLimit, SumFor;
      LimitWithinHundred(caps);
      if actions != [] {
        AddCap(95, ActionsOutstanding);
        RecordNo100(OpenActions);
      }
      DeductionsCount(deductions);
      LimitWithinHundred(caps);
      rawTotal := Clamped(MaxPoints(gui, Performance), performance) + Clamped(MaxPoints(gui, Excel), excel)
               + Clamped(MaxPoints(gui, Gui), 0.0) + Clamped(MaxPoints(gui, Security), security);
      total := rawTotal;
      if caps != [] {
        var limit := LowestCap();
        total := Lesser(total, limit as real);
      }
      total := GateFullScore(total);
      level := if total >= 90.0 then Excellent else if total >= 75.0 then Good else if total >= 60.0 then Average
          else Poor;
    }
  }

  lemma {:induction false} LimitWithinHundred(caps: seq<Cap>)
    ensures caps == [] ==> LowestLimit(caps) == 100
    ensures LowestLimit(caps) <= 100 && forall k | 0 <= k < |caps| :: LowestLimit(caps) <= caps[k].limit
    ensures caps != [] && (forall k | 0 <= k < |caps| :: caps[k].limit < 100) ==> LowestLimit(caps) < 100
  {
    if caps != [] {
      LimitWithinHundred(caps[..|caps| - 1]);
    }
  }

  lemma {:induction false} LimitIsLowest(caps: seq<Cap>, c: Cap)
    requires c in caps
    ensures LowestLimit(caps) <= c.limit && LowestLimit(caps) <= 100
  {
    LimitWithinHundred(caps);
  }

  lemma {:induction false} SumAppend(ds: seq<Deduction>, d: Deduction)
    ensures forall a: Axis :: SumFor(ds + [d], a) == SumFor(ds, a) + if d.axis == a then d.amount else 0.0
  {
    assert (ds + [d])[..|ds|] == ds;
  }

  /** Positive deductions on an axis leave a positive sum somewhere, and none on the axis they never name. */
  lemma {:induction false} DeductionsCount(ds: seq<Deduction>)
    requires forall k | 0 <= k < |ds| :: ds[k].amount > 0.0 && ds[k].axis != Gui
    ensures SumFor(ds, Gui) == 0.0
    ensures forall a: Axis :: SumFor(ds, a) >= 0.0
    ensures SumFor(ds, Performance) + SumFor(ds, Excel) + SumFor(ds, Security) > 0.0 <==> ds != []
  {
    if ds != [] {
      DeductionsCount(ds[..|ds| - 1]);
    }
  }

  // ---------------------------------------------------------------- whole runs

  function Combined(calls: seq<Call>): Effect {
    if calls == [] then NOTHING else Combined(calls[..|calls| - 1]).Join(EffectOf(calls[|calls| - 1]))
  }

  /** Nothing is given back, no cap is above 100, and a reason against a full score comes with something that lowers
      it. */
  ghost predicate Sane(e: Effect) {
    && 0.0 <= e.perf && 0.0 <= e.excel && 0.0 <= e.security && e.limit <= 100
    && (e.barred ==> 0.0 < e.perf || 0.0 < e.excel || 0.0 < e.security || e.limit < 100 || e.acts)
  }

  lemma {:induction false} JoinSane(a: Effect, b: Effect)
    requires Sane(a) && Sane(b)
    ensures Sane(a.Join(b))
  {
    var e := a.Join(b);
    assert e.perf == a.perf + b.perf && e.excel == a.excel + b.excel && e.security == a.security + b.security;
    assert e.limit <= a.limit && e.limit <= b.limit && e.acts == (a.acts || b.acts)
           && e.barred == (a.barred || b.barred);
    hide Effect.Join;
  }

  /** The effect lowers nothing. */
  predicate Free(e: Effect) { e.perf == 0.0 && e.excel == 0.0 && e.security == 0.0 && e.limit == 100 && !e.acts }

  lemma {:induction false} FreeIsNothing(e: Effect)
    requires Sane(e)
    ensures Free(e) <==> e == NOTHING
  {
  }

  lemma {:induction false} JoinFree(a: Effect, b: Effect)
    requires Sane(a) && Sane(b)
    ensures Free(a.Join(b)) <==> Free(a) && Free(b)
  {
  }

  lemma {:induction false} SpecsSane(have: set<Spec>, n: nat)
    requires n <= |Specs()|
    ensures Sane(SpecsEffect(have, n))
  {
    if n > 0 {
      SpecsSane(have, n - 1);
      hide Effect.Join, Specs;
      JoinSane(SpecsEffect(have, n - 1), SpecEffect(have, Specs()[n - 1]));
    }
  }

  lemma {:induction false} PytestSane(s: Summary, returnCode: int)
    ensures Sane(PytestEffect(s, returnCode))
  {
    hide Effect.Join;
    JoinSane(FailureEffect(s.failed, returnCode), WarningEffect(s.warnings));
    JoinSane(FailureEffect(s.failed, returnCode).Join(WarningEffect(s.warnings)), SkipEffect(s.skipped, s.xfailed));
  }

  lemma {:induction false} FeaturesSane(present: set<Feature>)
    ensures Sane(FeaturesEffect(present))
  {
    hide Effect.Join;
    var e := FeatureEffectUnless(present, StateCleanup);
    JoinSane(e, FeatureEffectUnless(present, RetryMechanism));
    e := e.Join(FeatureEffectUnless(present, RetryMechanism));
    JoinSane(e, FeatureEffectUnless(present, TimingControls));
    e := e.Join(FeatureEffectUnless(present, TimingControls));
    JoinSane(e, FeatureEffectUnless(present, MiddlewareOrder));
    e := e.Join(FeatureEffectUnless(present, MiddlewareOrder));
    JoinSane(e, FeatureEffectUnless(present, DebugHelpers));
  }

  lemma {:induction false} EvidenceSane(have: set<Spec>, integration: nat)
    ensures Sane(EvidenceEffect(have, integration))
  {
    hide Effect.Join, SpecsEffect, AllSpecs, Specs;
    SpecsSane(have, |Specs()|);
    JoinSane(SpecsEffect(have, |Specs()|), MissingEffect(!AllSpecs(have, |Specs()|)));
    JoinSane(SpecsEffect(have, |Specs()|).Join(MissingEffect(!AllSpecs(have, |Specs()|))), QuotaEffect(integration));
  }

  lemma {:induction false} EffectsSane(c: Call)
    ensures Sane(EffectOf(c))
  {
    hide PytestEffect, FeaturesEffect, EvidenceEffect;
    match c
    case PytestResult(s, rc) => PytestSane(s, rc);
    case FeatureFlags(present) => FeaturesSane(present);
    case EvidenceMatrix(have, integration) => EvidenceSane(have, integration);
    case _ =>
  }

  ghost predicate NothingDone(calls: seq<Call>) { forall c | c in calls :: EffectOf(c) == NOTHING }

  lemma {:induction false} CombinedSane(calls: seq<Call>)
    ensures Sane(Combined(calls)) && (Combined(calls) == NOTHING <==> NothingDone(calls))
    decreases |calls|
  {
    hide EffectOf, Effect.Join, Free;
    if calls != [] {
      var init, last := calls[..|calls| - 1], calls[|calls| - 1];
      CombinedSane(init);
      EffectsSane(last);
      hide Sane;
      JoinSane(Combined(init), EffectOf(last));
      JoinFree(Combined(init), EffectOf(last));
      FreeIsNothing(Combined(init));
      FreeIsNothing(EffectOf(last));
      FreeIsNothing(Combined(calls));
      assert calls == init + [last];
    }
  }

  lemma {:induction false} FullExactly(gui: bool, e: Effect)
    requires Sane(e)
    ensures FinalTotal(gui, e) == 100.0 <==> e == NOTHING
  {
  }

  // ---------------------------------------------------------------- what the calls cost

  function Points(missing: bool, points: real): real { if missing then points else 0.0 }

  lemma {:induction false} FailuresCost(failed: nat, returnCode: int)
    ensures FailureEffect(failed, returnCode)
         == if failed == 0 && returnCode == 0 then NOTHING
         else Effect(if failed > 1 then 15.0 + 5.0 * failed as real else 20.0, 0.0, 0.0, 100, true, true)
  {
  }

  lemma {:induction false} WarningsCost(warnings: nat)
    ensures WarningEffect(warnings)
         == if warnings == 0 then NOTHING
         else Effect(if warnings >= 5 then 10.0 else 2.0 * warnings as real, 0.0, 0.0, 90, true, true)
  {
  }

  lemma {:induction false} SkipsCost(skipped: nat, xfailed: nat)
    ensures SkipEffect(skipped, xfailed)
         == if skipped == 0 && xfailed == 0 then NOTHING else Effect(0.0, 0.0, 0.0, 92, false, true)
  {
  }

  /** Failures cost twenty points and five more for every failure but the first, warnings two each up to ten; warnings
      cap the score at 90, skips and expected failures at 92. */
  lemma {:induction false} PytestCosts(s: Summary, returnCode: int)
    ensures var e, failing := EffectOf(PytestResult(s, returnCode)), s.failed > 0 || returnCode != 0;
            && e.perf == Points(failing, if s.failed > 1 then 15.0 + 5.0 * s.failed as real else 20.0)
                         + Points(s.warnings > 0, if s.warnings >= 5 then 10.0 else 2.0 * s.warnings as real)
            && e.excel == 0.0 && e.security == 0.0
            && e.limit == (if s.warnings > 0 then 90 else if s.skipped > 0 || s.xfailed > 0 then 92 else 100)
            && (e.acts <==> failing || s.warnings > 0)
            && (e.barred <==> failing || s.warnings > 0 || s.skipped > 0 || s.xfailed > 0)
  {
    FailuresCost(s.failed, returnCode);
    WarningsCost(s.warnings);
    SkipsCost(s.skipped, s.xfailed);
    hide FailureEffect, WarningEffect, SkipEffect;
  }

  lemma {:induction false} FeatureCost(present: set<Feature>)
    ensures FeatureEffectUnless(present, StateCleanup) == var m := StateCleanup !in present;
                                                          Effect(Points(m, 8.0), 0.0, 0.0, 100, m, m)
    ensures FeatureEffectUnless(present, RetryMechanism) == var m := RetryMechanism !in present;
                                                            Effect(Points(m, 6.0), 0.0, 0.0, 100, m, m)
    ensures FeatureEffectUnless(present, TimingControls) == var m := TimingControls !in present;
                                                            Effect(Points(m, 5.0), 0.0, 0.0, 100, m, m)
    ensures FeatureEffectUnless(present, MiddlewareOrder) == var m := MiddlewareOrder !in present;
                                                             Effect(Points(m, 10.0), 0.0, 0.0, 100, m, m)
    ensures FeatureEffectUnless(present, DebugHelpers) == var m := DebugHelpers !in present;
                                                          Effect(0.0, 0.0, Points(m, 1.5), 100, false, m)
  {
  }

  /** The points of each feature. */
  lemma {:induction false} FeaturesCost(present: set<Feature>)
    ensures EffectOf(FeatureFlags(present))
         == Effect(Points(StateCleanup !in present, 8.0) + Points(RetryMechanism !in present, 6.0)
                   + Points(TimingControls !in present, 5.0) + Points(MiddlewareOrder !in present, 10.0),
                   0.0, Points(DebugHelpers !in present, 1.5), 100,
                   exists f: Feature :: f !in present && f != DebugHelpers, exists f: Feature :: f !in present)
  {
    FeatureCost(present);
    hide FeatureEffectUnless, Points;
  }

  /** A failed probe costs five points and caps the score at 92, markers cost two points each up to ten, an error of
      Redis caps the score at 85, and a skipped launch at 92. */
  lemma {:induction false} OtherCosts(success: Option<bool>, n: int, error: string)
    ensures EffectOf(Probe(success))
         == if success == Some(false) then Effect(5.0, 0.0, 0.0, 92, true, true) else NOTHING
    ensures var e := EffectOf(TodoCount(n));
            e == NOTHING.(perf := if n >= 5 then 10.0 else if n > 0 then 2.0 * n as real else 0.0)
    ensures EffectOf(RedisState(error)) == if error != "" then Effect(0.0, 0.0, 0.0, 85, true, true) else NOTHING
    ensures EffectOf(SkippedByLauncher) == Effect(0.0, 0.0, 0.0, 92, false, true)
    ensures NOTHING == Effect(0.0, 0.0, 0.0, 100, false, false)
  {
    assert n as real <= 5.0 <==> n <= 5;
  }

  const EXCEL_SPECS := {ChunkingFilenames, ExcelSafety, AtomicFinalize}
  const SECURITY_SPECS := {SecurityAccess, ObservabilityMetrics}
  const PERFORMANCE_SPECS := {StableSortKeys, StateHygiene, SnapshotDelta, CounterYearCode, SloBaseline, QualityGates}

  lemma {:induction false} SpecCosts(have: set<Spec>, n: nat)
    requires 0 < n <= 11
    ensures var spec, e := Specs()[n - 1], SpecsEffect(have, n - 1);
            var excel, security := spec in EXCEL_SPECS, spec in SECURITY_SPECS;
            SpecsEffect(have, n) == e.Join(Effect(Points(!excel && !security && spec !in have, 3.0),
                                                  Points(excel && spec !in have, 3.0),
                                                  Points(security && spec !in have, 3.0), 100, false, false))
  {
    hide Specs, Effect.Join;
  }

  /** The specifications of `group` among the first `n` that are missing. */
  function MissingOf(group: set<Spec>, have: set<Spec>, n: nat): set<Spec> {
    set spec | spec in group && Place(spec) < n && spec !in have
  }

  lemma {:induction false} NextMissing(group: set<Spec>, have: set<Spec>, n: nat)
    requires 0 < n <= 11
    ensures var spec := Specs()[n - 1];
            |MissingOf(group, have, n)|
            == |MissingOf(group, have, n - 1)| + if spec in group && spec !in have then 1 else 0
  {
    var spec := Specs()[n - 1];
    PlaceBack(n - 1);
    hide Specs, Place;
    var next := if spec in group && spec !in have then {spec} else {};
    assert forall s: Spec | Place(s) == n - 1 :: s == spec;
    assert MissingOf(group, have, n) == MissingOf(group, have, n - 1) + next;
  }

  lemma {:induction false} PlaceBack(k: nat)
    requires k < 11
    ensures Place(Specs()[k]) == k
  {
  }

  lemma {:induction false} MoreMissing(group: set<Spec>, have: set<Spec>, n: nat)
    requires 0 < n <= 11
    ensures var spec := Specs()[n - 1];
            3.0 * |MissingOf(group, have, n)| as real
            == 3.0 * |MissingOf(group, have, n - 1)| as real + Points(spec in group && spec !in have, 3.0)
  {
    NextMissing(group, have, n);
    hide Specs, MissingOf;
  }

  lemma {:induction false} GroupsSplit(spec: Spec)
    ensures spec in PERFORMANCE_SPECS <==> spec !in EXCEL_SPECS && spec !in SECURITY_SPECS
  {
  }

  lemma {:induction false} MissingCost(have: set<Spec>, n: nat)
    requires n <= 11
    ensures SpecsEffect(have, n) == Effect(3.0 * |MissingOf(PERFORMANCE_SPECS, have, n)| as real,
                                           3.0 * |MissingOf(EXCEL_SPECS, have, n)| as real,
                                           3.0 * |MissingOf(SECURITY_SPECS, have, n)| as real, 100, false, false)
  {
    if n == 0 {
      assert forall group: set<Spec> :: MissingOf(group, have, 0) == {};
    } else {
      MissingCost(have, n - 1);
      SpecCosts(have, n);
      MoreMissing(PERFORMANCE_SPECS, have, n);
      MoreMissing(EXCEL_SPECS, have, n);
      MoreMissing(SECURITY_SPECS, have, n);
      GroupsSplit(Specs()[n - 1]);
      hide Specs, MissingOf, SpecsEffect, Points, EXCEL_SPECS, SECURITY_SPECS, PERFORMANCE_SPECS;
    }
  }

  lemma {:induction false} AllMissing(group: set<Spec>, have: set<Spec>)
    ensures MissingOf(group, have, 11) == group - have
  {
    hide Place;
  }

  /** Three points for every specification without evidence, on its axis, and three on both main axes for fewer than
      three integration tests. */
  lemma {:induction false} EvidenceCosts(have: set<Spec>, integration: nat)
    ensures var short, missing := integration < 3, exists spec: Spec :: spec !in have;
            EffectOf(EvidenceMatrix(have, integration))
            == Effect(3.0 * |PERFORMANCE_SPECS - have| as real + Points(short, 3.0),
                      3.0 * |EXCEL_SPECS - have| as real + Points(short, 3.0),
                      3.0 * |SECURITY_SPECS - have| as real, 100, missing || short, missing || short)
  {
    SpecsCost(have);
    EverySpec(have);
    EvidenceJoins(3.0 * |PERFORMANCE_SPECS - have| as real, 3.0 * |EXCEL_SPECS - have| as real,
                  3.0 * |SECURITY_SPECS - have| as real, exists spec: Spec :: spec !in have, integration);
    EvidenceForm(have, integration);
    hide *;
  }

  lemma {:induction false} EvidenceForm(have: set<Spec>, integration: nat)
    ensures EffectOf(EvidenceMatrix(have, integration))
         == SpecsEffect(have, |Specs()|).Join(MissingEffect(!AllSpecs(have, |Specs()|))).Join(QuotaEffect(integration))
  {
  }

  lemma {:induction false} SpecsCost(have: set<Spec>)
    ensures SpecsEffect(have, |Specs()|)
         == Effect(3.0 * |PERFORMANCE_SPECS - have| as real, 3.0 * |EXCEL_SPECS - have| as real,
                   3.0 * |SECURITY_SPECS - have| as real, 100, false, false)
  {
    MissingCost(have, 11);
    assert |Specs()| == 11;
    AllMissing(PERFORMANCE_SPECS, have);
    AllMissing(EXCEL_SPECS, have);
    AllMissing(SECURITY_SPECS, have);
    hide *;
  }

  lemma {:induction false} EvidenceJoins(p: real, x: real, s: real, missing: bool, integration: nat)
    ensures var short := integration < 3;
            Effect(p, x, s, 100, false, false).Join(MissingEffect(missing)).Join(QuotaEffect(integration))
            == Effect(p + Points(short, 3.0), x + Points(short, 3.0), s, 100, missing || short, missing || short)
  {
  }

  // ---------------------------------------------------------------- what the score comes to

  /** No axis loses more points than it has. */
  function Lost(max: real, deducted: real): real { if deducted < max then deducted else max }

  /** The total is 100 less what the axes lose, and no more than the lowest cap; open actions cap it at 95. */
  lemma {:induction false} TotalIs(gui: bool, e: Effect)
    requires Sane(e)
    ensures var raw := 100.0 - Lost(if gui then 40.0 else 49.0, e.perf) - Lost(if gui then 40.0 else 46.0, e.excel)
                       - Lost(5.0, e.security);
            var cap := if e.acts && e.limit > 95 then 95 else e.limit;
            FinalTotal(gui, e) == if raw <= cap as real then raw else cap as real
  {
  }

  /** Among any calls, each counts with all its points and its cap. */
  lemma {:induction false} CallCounts(calls: seq<Call>, c: Call)
    requires c in calls
    ensures var all, e := Combined(calls), EffectOf(c);
            && e.perf <= all.perf && e.excel <= all.excel && e.security <= all.security && all.limit <= e.limit
            && (e.acts ==> all.acts) && (e.barred ==> all.barred)
  {
    var init, last := calls[..|calls| - 1], calls[|calls| - 1];
    hide EffectOf, Sane;
    CombinedSane(init);
    EffectsSane(last);
    JoinCounts(Combined(init), EffectOf(last));
    hide Effect.Join;
    if c != last {
      assert calls == init + [last];
      CallCounts(init, c);
      assert Combined(calls) == Combined(init).Join(EffectOf(last));
      hide Combined;
    }
  }

  lemma {:induction false} JoinCounts(a: Effect, b: Effect)
    requires Sane(a) && Sane(b)
    ensures var e := a.Join(b);
            && a.perf <= e.perf && a.excel <= e.excel && a.security <= e.security && e.limit <= a.limit
            && b.perf <= e.perf && b.excel <= e.excel && b.security <= e.security && e.limit <= b.limit
            && (a.acts || b.acts ==> e.acts) && (a.barred || b.barred ==> e.barred)
  {
  }

  /** Whatever else is reported: a warning keeps the score at or below 90, an error of Redis at 85, a skip, a failed
      probe or a skipped launch at 92, and everything that asks for an action at 95. */
  lemma {:induction false} CapsHold(gui: bool, calls: seq<Call>, c: Call)
    requires c in calls
    ensures c.PytestResult? && c.summary.warnings > 0 ==> FinalTotal(gui, Combined(calls)) <= 90.0
    ensures c.RedisState? && c.error != "" ==> FinalTotal(gui, Combined(calls)) <= 85.0
    ensures c.PytestResult? && (c.summary.skipped > 0 || c.summary.xfailed > 0) ==>
              FinalTotal(gui, Combined(calls)) <= 92.0
    ensures c == Probe(Some(false)) || c == SkippedByLauncher ==> FinalTotal(gui, Combined(calls)) <= 92.0
    ensures c.PytestResult? && (c.returnCode != 0 || c.summary.failed > 0) ==> FinalTotal(gui, Combined(calls)) <= 80.0
    ensures EffectOf(c).acts ==> FinalTotal(gui, Combined(calls)) <= 95.0
  {
    CallCounts(calls, c);
    CombinedSane(calls);
    TotalIs(gui, Combined(calls));
    if c.PytestResult? {
      PytestCosts(c.summary, c.returnCode);
    }
    hide Combined, PytestEffect, FeaturesEffect, EvidenceEffect, FinalTotal;
  }

  /** The score is full exactly if no call had an effect. */
  method Score(gui: bool, calls: seq<Call>) returns (total: real, engine: ScoreEngine)
    ensures total == FinalTotal(gui, Combined(calls))
    ensures total == 100.0 <==> NothingDone(calls)
    ensures total == 100.0 <==> engine.deductions == [] && engine.caps == []
  {
    hide EffectOf, FinalTotal;
    engine := new ScoreEngine(gui);
    for i := 0 to |calls|
      invariant fresh(engine) && engine.Valid() && engine.gui == gui && engine.Effects() == Combined(calls[..i])
    {
      assert calls[..i + 1][..i] == calls[..i];
      engine.Apply(calls[i]);
    }
    assert calls[..|calls|] == calls;
    var raw, level;
    raw, total, level := engine.Finalize();
    CombinedSane(calls);
    FullExactly(gui, Combined(calls));
  }

  lemma {:induction false} CombinedWithinHundred(calls: seq<Call>)
    ensures Combined(calls).limit <= 100
  {
    hide EffectOf;
    if calls != [] {
      CombinedWithinHundred(calls[..|calls| - 1]);
    }
  }

  lemma {:induction false} CombinedAppends(a: seq<Call>, b: seq<Call>)
    ensures Combined(a + b) == Combined(a).Join(Combined(b))
  {
    hide EffectOf, Effect.Join;
    if b == [] {
      assert a + b == a;
      CombinedWithinHundred(a);
      JoinNothing(Combined(a));
    } else {
      var c := b[..|b| - 1];
      assert (a + b)[..|a + b| - 1] == a + c;
      CombinedAppends(a, c);
      JoinAssociates(Combined(a), Combined(c), EffectOf(b[|b| - 1]));
    }
  }

  lemma {:induction false} JoinCommutes(a: Effect, b: Effect)
    ensures a.Join(b) == b.Join(a)
  {
  }

  /** A call may be made last instead. */
  lemma {:induction false} CallMovesLast(x: seq<Call>, c: Call, y: seq<Call>)
    ensures Combined(x + [c] + y) == Combined(x + y + [c])
  {
    hide EffectOf, Effect.Join, Combined;
    CombinedAppends(x + [c], y);
    CombinedAppends(x, [c]);
    CombinedAppends(x + y, [c]);
    CombinedAppends(x, y);
    JoinAssociates(Combined(x), Combined([c]), Combined(y));
    JoinAssociates(Combined(x), Combined(y), Combined([c]));
    JoinCommutes(Combined([c]), Combined(y));
  }

  lemma {:induction false} WithoutLast(a: seq<Call>, b: seq<Call>) returns (i: nat)
    requires b != [] && multiset(a) == multiset(b)
    ensures i < |a| && a[i] == b[|b| - 1]
    ensures multiset(a[..i] + a[i + 1..]) == multiset(b[..|b| - 1])
  {
    var c := b[|b| - 1];
    assert b == b[..|b| - 1] + [c];
    assert c in multiset(b) && c in multiset(a);
    i :| 0 <= i < |a| && a[i] == c;
    assert a == a[..i] + [c] + a[i + 1..];
    assert multiset(a) == multiset(a[..i]) + multiset{c} + multiset(a[i + 1..]);
    assert multiset(b) == multiset(b[..|b| - 1]) + multiset{c};
    assert multiset(a[..i] + a[i + 1..]) == multiset(a) - multiset{c};
    assert multiset(b[..|b| - 1]) == multiset(b) - multiset{c};
  }

  /** The score depends only on which calls were made and how often, not on their order. */
  lemma {:induction false} OrderIsIrrelevant(a: seq<Call>, b: seq<Call>)
    requires multiset(a) == multiset(b)
    ensures Combined(a) == Combined(b)
    decreases |b|
  {
    hide EffectOf, Effect.Join;
    assert |multiset(a)| == |a| && |multiset(b)| == |b|;
    if b != [] {
      var i := WithoutLast(a, b);
      var x, c, y := a[..i], a[i], a[i + 1..];
      assert a == x + [c] + y;
      CallMovesLast(x, c, y);
      OrderIsIrrelevant(x + y, b[..|b| - 1]);
      assert (x + y + [c])[..|x + y|] == x + y;
    }
  }
}
