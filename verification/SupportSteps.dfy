/** The parsed-document patcher: where the two support steps of a job are put. */
module SupportSteps {
  import opened PyStrings
  import opened WorkflowLines
  import opened StepRewriter

  datatype Env = NoEnv | Mapping(vars: map<string, string>) | NotAMapping

  /** An item of a step list: a mapping, of which only name, script and environment matter, or something else. */
  datatype Step = Step(name: Option<string>, run: Option<string>, env: Env) | NotAStep

  function Normalized(name: string): string { Unquote(Strip(name)) }

  predicate Called(s: Step, name: string) { s.Step? && s.name.Some? && Normalized(s.name.value) == name }

  predicate IsInstall(s: Step) { Called(s, INSTALL_STEP_NAME) }

  predicate IsSelect(s: Step) { Called(s, SELECT_STEP_NAME) }

  predicate OfKind(s: Step, select: bool) { if select then IsSelect(s) else IsInstall(s) }

  const INSTALL_RUN_SCRIPT := Join(INSTALL_RUN_COMMANDS, '\n')
  const SELECT_LINES := [SELECT_IF, "  " + SELECT_STUB, SELECT_ELSE, "  " + SELECT_REDIS, SELECT_FI]
  const SELECT_RUN_SCRIPT := Join(SELECT_LINES, '\n')

  function NewInstall(): Step { Step(Some(INSTALL_STEP_NAME), Some(INSTALL_RUN_SCRIPT), NoEnv) }

  function NewSelect(): Step { Step(Some(SELECT_STEP_NAME), Some(SELECT_RUN_SCRIPT), NoEnv) }

  function Refresh(s: Step): Step
    requires s.Step?
  {
    s.(name := Some(INSTALL_STEP_NAME), run := Some(INSTALL_RUN_SCRIPT))
  }

  lemma {:induction false} NormalIsItself(s: string)
    requires |s| > 0 && !Space(s[0]) && !Space(s[|s| - 1]) && s[0] != '\'' && s[0] != '"'
    ensures Normalized(s) == s
  {
    StripIs("", s, "");
    assert "" + s + "" == s;
  }

  lemma {:induction false} SupportNames()
    ensures INSTALL_STEP_NAME != SELECT_STEP_NAME
    ensures Normalized(INSTALL_STEP_NAME) == INSTALL_STEP_NAME && Normalized(SELECT_STEP_NAME) == SELECT_STEP_NAME
  {
    hide Normalized;
    assert INSTALL_STEP_NAME[0] == 'I' && SELECT_STEP_NAME[0] == 'S';
    NormalIsItself(INSTALL_STEP_NAME);
    NormalIsItself(SELECT_STEP_NAME);
  }

  lemma {:induction false} SupportKinds()
    ensures IsInstall(NewInstall()) && IsSelect(NewSelect()) && NewInstall().Step?
    ensures Refresh(NewInstall()) == NewInstall()
    ensures forall s: Step :: !(IsInstall(s) && IsSelect(s))
  {
    SupportNames();
    hide Normalized;
  }

  lemma {:induction false} KindsDiffer()
    ensures forall s: Step :: !(IsInstall(s) && IsSelect(s))
  {
    SupportNames();
    hide Normalized;
  }

  lemma {:induction false} RefreshedInstall(s: Step)
    requires IsInstall(s)
    ensures s.Step? && IsInstall(Refresh(s)) && !IsSelect(Refresh(s)) && Refresh(s).Step?
    ensures Refresh(Refresh(s)) == Refresh(s)
  {
    SupportNames();
    hide Normalized;
  }

  // ---------------------------------------------------------------- which steps are support steps

  predicate QuoteOf(q: string) { q == "" || q == "'" || q == "\"" }

  /** A name that starts and ends with neither blanks nor quotes. */
  predicate CleanName(name: string) {
    name != "" && !Space(name[0]) && !Space(name[|name| - 1]) && name[0] != '\'' && name[0] != '"'
  }

  /** A name is compared without the blanks around it and without its quotes. */
  lemma {:induction false} NamesCompared(pre: string, quote: string, name: string, post: string)
    requires AllSpaces(pre) && AllSpaces(post) && QuoteOf(quote) && CleanName(name)
    ensures Normalized(pre + (quote + name + quote) + post) == name
  {
    var core := quote + name + quote;
    QuotesGo(quote, name);
    StripIs(pre, core, post);
    hide Unquote, Strip;
    assert pre + core + post == pre + (quote + name + quote) + post;
  }

  lemma {:induction false} QuotesGo(quote: string, name: string)
    requires QuoteOf(quote) && CleanName(name)
    ensures var core := quote + name + quote;
            core != "" && !Space(core[0]) && !Space(core[|core| - 1]) && Unquote(core) == name
  {
    if quote == "" {
      assert quote + name + quote == name;
    } else {
      var q := quote[0];
      assert !Space(q) && quote == [q];
      InQuotes(q, name);
    }
  }

  lemma {:induction false} InQuotes(q: char, name: string)
    requires q == '\'' || q == '"'
    ensures var core := [q] + name + [q];
            core[0] == core[|core| - 1] == q && Unquote(core) == name
  {
    assert ([q] + name + [q])[1..|name| + 1] == name;
  }

  /** A step is a support step exactly if its name is one of the two. */
  lemma {:induction false} SupportByName(pre: string, quote: string, name: string, post: string, run: Option<string>,
                                         env: Env)
    requires AllSpaces(pre) && AllSpaces(post) && QuoteOf(quote) && CleanName(name)
    ensures var s := Step(Some(pre + (quote + name + quote) + post), run, env);
            && (IsInstall(s) <==> name == "Install dependencies (with extras)")
            && (IsSelect(s) <==> name == "Select mode env")
    ensures !IsInstall(NotAStep) && !IsSelect(NotAStep)
    ensures !IsInstall(Step(None, run, env)) && !IsSelect(Step(None, run, env))
  {
    NamesCompared(pre, quote, name, post);
    hide Normalized;
  }

  /** A refreshed step keeps its variables; its script is that of a new one, the four commands on a line each. */
  lemma {:induction false} RefreshKeeps(s: Step)
    requires s.Step?
    ensures Refresh(s).env == s.env && Refresh(s).run == NewInstall().run && Refresh(s).name == NewInstall().name
    ensures NewInstall().env == NoEnv == NewSelect().env
    ensures NewInstall().name == Some("Install dependencies (with extras)")
    ensures NewSelect().name == Some("Select mode env")
    ensures NewInstall().run
         == Some(UPGRADE_PIP + ("\n" + (INSTALL_EXTRAS + ("\n" + (INSTALL_TESTING + ("\n" + INSTALL_SUPPORT))))))
    ensures NewSelect().run
         == Some(SELECT_IF + ("\n" + ("  " + SELECT_STUB + ("\n" + (SELECT_ELSE + ("\n" + ("  " + SELECT_REDIS
                                                                                      + ("\n" + SELECT_FI))))))))
  {
    hide UPGRADE_PIP, INSTALL_EXTRAS, INSTALL_TESTING, INSTALL_SUPPORT, SELECT_IF, SELECT_STUB, SELECT_ELSE,
      SELECT_REDIS, SELECT_FI;
    JoinFour(UPGRADE_PIP, INSTALL_EXTRAS, INSTALL_TESTING, INSTALL_SUPPORT);
    JoinFive(SELECT_IF, "  " + SELECT_STUB, SELECT_ELSE, "  " + SELECT_REDIS, SELECT_FI);
  }

  lemma {:induction false} JoinFour(a: string, b: string, c: string, d: string)
    ensures Join([a, b, c, d], '\n') == a + ("\n" + (b + ("\n" + (c + ("\n" + d)))))
  {
    JoinNext(a, [b, c, d]);
    JoinNext(b, [c, d]);
    JoinNext(c, [d]);
  }

  lemma {:induction false} JoinFive(a: string, b: string, c: string, d: string, e: string)
    ensures Join([a, b, c, d, e], '\n') == a + ("\n" + (b + ("\n" + (c + ("\n" + (d + ("\n" + e)))))))
  {
    JoinNext(a, [b, c, d, e]);
    JoinFour(b, c, d, e);
  }

  lemma {:induction false} JoinNext(a: string, rest: seq<string>)
    requires rest != []
    ensures Join([a] + rest, '\n') == a + ("\n" + Join(rest, '\n')) && (|rest| == 1 ==> Join(rest, '\n') == rest[0])
  {
    assert ([a] + rest)[1..] == rest;
  }

  // ---------------------------------------------------------------- support steps around a target

  predicate Support(steps: seq<Step>, t: nat, i: nat) {
    i < |steps| && i != t && (IsInstall(steps[i]) || IsSelect(steps[i]))
  }

  /** The first support step of a kind, the target apart. */
  function First(steps: seq<Step>, t: nat, select: bool, i: nat): (f: nat)
    requires i <= |steps|
    ensures i <= f <= |steps|
    ensures f < |steps| ==> Support(steps, t, f) && OfKind(steps[f], select)
    ensures forall k | i <= k < f && k != t :: !OfKind(steps[k], select)
    decreases |steps| - i
  {
    if i == |steps| || (i != t && OfKind(steps[i], select)) then i
    else First(steps, t, select, i + 1)
  }

  /** The list with its first install step brought up to date. */
  function Refreshed(steps: seq<Step>, t: nat): (r: seq<Step>)
    ensures |r| == |steps| && (t < |r| ==> r[t] == steps[t])
    ensures forall i | 0 <= i < |r| ::
              r[i] == steps[i]
              || (Support(steps, t, i) && IsInstall(steps[i]) && r[i] == Refresh(steps[i]))
  {
    var f := First(steps, t, false, 0);
    if f < |steps| then steps[f := Refresh(steps[f])] else steps
  }

  lemma {:induction false} RefreshedKinds(steps: seq<Step>, t: nat)
    ensures forall k | 0 <= k < |steps| ::
              IsInstall(Refreshed(steps, t)[k]) == IsInstall(steps[k])
                  && IsSelect(Refreshed(steps, t)[k]) == IsSelect(steps[k])
  {
    hide IsInstall, IsSelect, Refresh, First;
    KindsDiffer();
    var f := First(steps, t, false, 0);
    if f < |steps| {
      RefreshedInstall(steps[f]);
    }
  }

  function InstallOf(steps: seq<Step>, t: nat): (s: Step) {
    var f := First(steps, t, false, 0);
    if f < |steps| then steps[f] else NewInstall()
  }

  function SelectOf(steps: seq<Step>, t: nat): (s: Step) {
    var f := First(steps, t, true, 0);
    if f < |steps| then steps[f] else NewSelect()
  }

  /** Lines `a..b` without the support steps. */
  function NonSupport(steps: seq<Step>, t: nat, a: nat, b: nat): (r: seq<Step>)
    requires a <= b <= |steps|
    ensures |r| <= b - a
    decreases b - a
  {
    if a == b then []
    else (if Support(steps, t, a) then [] else [steps[a]]) + NonSupport(steps, t, a + 1, b)
  }

  /** The support steps are right before the target, install first, and there are no others. */
  ghost predicate InPlace(steps: seq<Step>, t: nat) {
    && 2 <= t < |steps| && IsInstall(steps[t - 2]) && IsSelect(steps[t - 1])
    && forall i: nat | Support(steps, t, i) :: i == t - 2 || i == t - 1
  }

  /** The list as ensuring the support steps of `t` leaves it. */
  ghost function Arranged(steps: seq<Step>, t: nat): seq<Step>
    requires t < |steps|
  {
    var s := Refreshed(steps, t);
    if InPlace(s, t) then s else Rearranged(s, t)
  }

  /** The support steps right before the target, everything else in its old order. */
  function Rearranged(steps: seq<Step>, t: nat): seq<Step>
    requires t < |steps|
  {
    NonSupport(steps, t, 0, t) + [InstallOf(steps, t), SelectOf(steps, t), steps[t]]
        + NonSupport(steps, t, t + 1, |steps|)
  }

  // ---------------------------------------------------------------- the code

  /** What the scan of the list knows: the indices of the steps of a kind, in order. */
  ghost predicate Listed(steps: seq<Step>, t: nat, select: bool, i: nat, indices: seq<nat>) {
    && i <= |steps|
    && (forall j, k | 0 <= j < k < |indices| :: indices[j] < indices[k])
    && (forall j | 0 <= j < |indices| :: indices[j] < i && indices[j] != t && OfKind(steps[indices[j]], select))
    && (forall k: nat {:trigger k in indices} | k < i && k != t && OfKind(steps[k], select) :: k in indices)
  }

  lemma {:induction false} ListStart(steps: seq<Step>, t: nat)
    ensures Listed(steps, t, false, 0, []) && Listed(steps, t, true, 0, [])
  {
  }

  lemma {:induction false} ListNext(steps: seq<Step>, t: nat, select: bool, i: nat, indices: seq<nat>)
    requires Listed(steps, t, select, i, indices) && i < |steps|
    ensures Listed(steps, t, select, i + 1, if i != t && OfKind(steps[i], select) then indices + [i] else indices)
  {
    hide OfKind;
    if i != t && OfKind(steps[i], select) {
      var next := indices + [i];
      assert forall j | 0 <= j < |indices| :: next[j] == indices[j];
      assert next[|indices|] == i;
      forall k: nat | k < i + 1 && k != t && OfKind(steps[k], select)
        ensures k in next
      {
        if k < i {
          assert k in indices;
          InLonger(indices, i, k);
        }
      }
    }
  }

  lemma {:induction false} InLonger(a: seq<nat>, x: nat, k: nat)
    requires k in a
    ensures k in a + [x]
  {
    var j :| 0 <= j < |a| && a[j] == k;
    assert (a + [x])[j] == k;
  }

  lemma {:induction false} FirstListed(steps: seq<Step>, t: nat, select: bool, indices: seq<nat>)
    requires Listed(steps, t, select, |steps|, indices)
    ensures First(steps, t, select, 0) == if indices == [] then |steps| else indices[0]
    ensures indices != [] ==> indices[0] < |steps| && OfKind(steps[indices[0]], select)
  {
    hide OfKind, First;
    var f := First(steps, t, select, 0);
    assert f < |steps| ==> f in indices;
  }

  method Occurrences(steps: seq<Step>, t: nat) returns (installs: seq<nat>, selects: seq<nat>)
    ensures Listed(steps, t, false, |steps|, installs) && Listed(steps, t, true, |steps|, selects)
  {
    hide IsInstall, IsSelect, Listed;
    KindsDiffer();
    ListStart(steps, t);
    installs, selects := [], [];
    for i := 0 to |steps|
      invariant Listed(steps, t, false, i, installs) && Listed(steps, t, true, i, selects)
    {
      ListNext(steps, t, false, i, installs);
      ListNext(steps, t, true, i, selects);
      if i != t {
        if IsInstall(steps[i]) {
          installs := installs + [i];
        } else if IsSelect(steps[i]) {
          selects := selects + [i];
        }
      }
    }
  }

  predicate OrderOk(steps: seq<Step>, t: nat) {
    2 <= t < |steps| && IsInstall(steps[t - 2]) && IsSelect(steps[t - 1])
  }

  lemma {:induction false} AtMostOne(indices: seq<nat>, only: nat)
    requires forall j, k | 0 <= j < k < |indices| :: indices[j] < indices[k]
    ensures |indices| > 1 ==> exists k | 0 <= k < |indices| :: indices[k] != only
  {
    assert |indices| > 1 ==> indices[0] < indices[1];
  }

  /** The four tests of the code say that the support steps are in place. */
  lemma {:induction false} TestsMeanInPlace(steps: seq<Step>, t: nat, installs: seq<nat>, selects: seq<nat>)
    requires t < |steps| && Listed(steps, t, false, |steps|, installs) && Listed(steps, t, true, |steps|, selects)
    ensures InPlace(steps, t) <==>
              && |installs| <= 1 && |selects| <= 1
              && (forall i | i in installs + selects :: i <= t)
              && installs != [] && selects != []
              && OrderOk(steps, t)
  {
    hide IsInstall, IsSelect, NewInstall;
    KindsDiffer();
    if InPlace(steps, t) {
      assert t - 2 in installs && t - 1 in selects;
      assert forall k | 0 <= k < |installs| :: installs[k] in installs && Support(steps, t, installs[k]);
      assert forall k | 0 <= k < |selects| :: selects[k] in selects && Support(steps, t, selects[k]);
      AtMostOne(installs, t - 2);
      AtMostOne(selects, t - 1);
    }
    if |installs| == 1 && |selects| == 1 && OrderOk(steps, t) {
      assert t - 2 in installs && t - 1 in selects;
      forall i: nat | Support(steps, t, i)
        ensures i == t - 2 || i == t - 1
      {
        assert i in installs || i in selects;
      }
    }
  }

  lemma {:induction false} RestOf(steps: seq<Step>, t: nat, a: nat, b: nat, m: nat)
    requires a <= m <= b <= |steps|
    ensures NonSupport(steps, t, a, b) == NonSupport(steps, t, a, m) + NonSupport(steps, t, m, b)
    decreases m - a
  {
    hide Support;
    if a < m {
      RestOf(steps, t, a + 1, b, m);
    }
  }

  lemma {:induction false} SupportListed(steps: seq<Step>, t: nat, installs: seq<nat>, selects: seq<nat>, i: nat)
    requires Listed(steps, t, false, |steps|, installs) && Listed(steps, t, true, |steps|, selects) && i < |steps|
    ensures Support(steps, t, i) <==> i in installs || i in selects
  {
    hide IsInstall, IsSelect;
  }

  lemma {:induction false} NonSupportNext(steps: seq<Step>, t: nat, a: nat, b: nat)
    requires a < b <= |steps|
    ensures NonSupport(steps, t, a, b)
         == if Support(steps, t, a) then NonSupport(steps, t, a + 1, b) else [steps[a]] + NonSupport(steps, t, a + 1, b)
  {
    hide Support;
  }

  /** Drops the support steps from the list, last first, and says where the target is then. */
  lemma {:induction false} DropOne(steps: seq<Step>, i: nat, tail: seq<Step>)
    requires i < |steps|
    ensures var rest := steps[..i + 1] + tail;
            rest[..i] + rest[i + 1..] == steps[..i] + tail && rest == steps[..i] + ([steps[i]] + tail)
  {
  }

  lemma {:induction false} NonSupportEnds(steps: seq<Step>, t: nat)
    requires t < |steps|
    ensures NonSupport(steps, t, |steps|, |steps|) == [] == NonSupport(steps, t, t, t) && steps[..|steps|] == steps
    ensures NonSupport(steps, t, t, |steps|) == [steps[t]] + NonSupport(steps, t, t + 1, |steps|)
    ensures !Support(steps, t, t)
  {
  }

  method DropSupport(steps: seq<Step>, t: nat, installs: seq<nat>, selects: seq<nat>)
    returns (rest: seq<Step>, target: nat)
    requires t < |steps| && Listed(steps, t, false, |steps|, installs) && Listed(steps, t, true, |steps|, selects)
    ensures target == |NonSupport(steps, t, 0, t)|
    ensures rest == NonSupport(steps, t, 0, t) + [steps[t]] + NonSupport(steps, t, t + 1, |steps|)
  {
    NonSupportEnds(steps, t);
    hide IsInstall, IsSelect, NonSupport, Support, Listed;
    rest, target := steps, t;
    for i := |steps| downto 0
      invariant rest == steps[..i] + NonSupport(steps, t, i, |steps|)
      invariant target == if t <= i then t else i + |NonSupport(steps, t, i, t)|
    {
      SupportListed(steps, t, installs, selects, i);
      NonSupportNext(steps, t, i, |steps|);
      if i < t {
        NonSupportNext(steps, t, i, t);
      }
      DropOne(steps, i, NonSupport(steps, t, i + 1, |steps|));
      if i in installs || i in selects {
        if i < t {
          target := target - 1;
        }
        rest := rest[..i] + rest[i + 1..];
      }
    }
    RestOf(steps, t, 0, |steps|, t);
  }

  method InsertPair(rest: seq<Step>, target: nat, install: Step, select: Step) returns (steps: seq<Step>)
    requires target <= |rest|
    ensures steps == rest[..target] + [install, select] + rest[target..]
  {
    steps := rest;
    steps := steps[..target] + [install] + steps[target..];
    assert steps[..target + 1] == rest[..target] + [install] && steps[target + 1..] == rest[target..];
    steps := steps[..target + 1] + [select] + steps[target + 1..];
  }

  method Rearrange(steps: seq<Step>, t: nat, installs: seq<nat>, selects: seq<nat>) returns (r: seq<Step>)
    requires t < |steps| && Listed(steps, t, false, |steps|, installs) && Listed(steps, t, true, |steps|, selects)
    ensures r == Rearranged(steps, t)
  {
    hide IsInstall, IsSelect, NewInstall, NewSelect, NonSupport;
    FirstListed(steps, t, false, installs);
    FirstListed(steps, t, true, selects);
    var install := if installs != [] then steps[installs[0]] else NewInstall();
    var select := if selects != [] then steps[selects[0]] else NewSelect();
    var rest, target := DropSupport(steps, t, installs, selects);
    r := InsertPair(rest, target, install, select);
    assert rest[..target] == NonSupport(steps, t, 0, t);
    assert rest[target..] == [steps[t]] + NonSupport(steps, t, t + 1, |steps|);
  }

  lemma {:induction false} RefreshedIsListed(steps: seq<Step>, t: nat, installs: seq<nat>, selects: seq<nat>)
    requires Listed(steps, t, false, |steps|, installs) && Listed(steps, t, true, |steps|, selects)
    ensures Listed(Refreshed(steps, t), t, false, |steps|, installs)
    ensures Listed(Refreshed(steps, t), t, true, |steps|, selects)
  {
    RefreshedKinds(steps, t);
    hide IsInstall, IsSelect, Refreshed, Refresh;
  }

  // ---------------------------------------------------------------- where everything ends up

  function SupportBefore(steps: seq<Step>, t: nat, b: nat): set<nat> {
    set i: nat | i < b && Support(steps, t, i)
  }

  lemma {:induction false} NonSupportLength(steps: seq<Step>, t: nat, b: nat)
    requires b <= |steps|
    ensures |NonSupport(steps, t, 0, b)| + |SupportBefore(steps, t, b)| == b
  {
    hide Support;
    if b > 0 {
      var c := b - 1;
      NonSupportLength(steps, t, c);
      RestOf(steps, t, 0, b, c);
      assert NonSupport(steps, t, b, b) == [];
      assert SupportBefore(steps, t, b) == SupportBefore(steps, t, c) + if Support(steps, t, c) then {c} else {};
    }
  }

  lemma {:induction false} NonSupportHolds(steps: seq<Step>, t: nat, a: nat, b: nat)
    requires a <= b <= |steps| && !(a <= t < b)
    ensures forall s | s in NonSupport(steps, t, a, b) :: s in steps[a..b] && !IsInstall(s) && !IsSelect(s)
    ensures forall i: nat | a <= i < b && !Support(steps, t, i) :: steps[i] in NonSupport(steps, t, a, b)
    decreases b - a
  {
    hide IsInstall, IsSelect;
    if a < b {
      NonSupportHolds(steps, t, a + 1, b);
      assert steps[a..b] == [steps[a]] + steps[a + 1..b];
    }
  }

  lemma {:induction false} FirstStays(steps: seq<Step>, t: nat)
    ensures First(Refreshed(steps, t), t, false, 0) == First(steps, t, false, 0)
  {
    RefreshedKinds(steps, t);
    hide IsInstall, IsSelect, Refreshed, First;
    var f, g := First(Refreshed(steps, t), t, false, 0), First(steps, t, false, 0);
    assert f < |steps| ==> IsInstall(steps[f]);
    assert g < |steps| ==> IsInstall(Refreshed(steps, t)[g]);
  }

  lemma {:induction false} PairKinds(steps: seq<Step>, t: nat)
    requires t < |steps|
    ensures var s := Refreshed(steps, t);
            && IsInstall(InstallOf(s, t)) && IsSelect(SelectOf(s, t))
            && InstallOf(s, t).Step? && Refresh(InstallOf(s, t)) == InstallOf(s, t)
  {
    hide IsInstall, IsSelect, Refresh, First, NewInstall, NewSelect;
    SupportKinds();
    FirstStays(steps, t);
    var f := First(steps, t, false, 0);
    if f < |steps| {
      RefreshedInstall(steps[f]);
    }
  }

  /** The index of the target after its support steps are ensured. */
  ghost function TargetAfter(steps: seq<Step>, t: nat): (g: nat)
    requires t < |steps|
  {
    if InPlace(Refreshed(steps, t), t) then t else |NonSupport(Refreshed(steps, t), t, 0, t)| + 2
  }

  lemma {:induction false} SupportStays(steps: seq<Step>, t: nat)
    ensures forall i: nat :: Support(Refreshed(steps, t), t, i) <==> Support(steps, t, i)
  {
    RefreshedKinds(steps, t);
    hide IsInstall, IsSelect, Refreshed;
  }

  /** The target moves right by the two steps put before it and left by the support steps taken from before it. */
  lemma {:induction false} TargetLands(steps: seq<Step>, t: nat)
    requires t < |steps| && !InPlace(Refreshed(steps, t), t)
    ensures |SupportBefore(steps, t, t)| <= t
    ensures TargetAfter(steps, t) == t - |SupportBefore(steps, t, t)| + 2 < |Arranged(steps, t)|
    ensures Arranged(steps, t)[TargetAfter(steps, t)] == steps[t]
  {
    hide Support, Refreshed;
    SupportStays(steps, t);
    NonSupportLength(Refreshed(steps, t), t, t);
    assert SupportBefore(Refreshed(steps, t), t, t) == SupportBefore(steps, t, t);
  }

  lemma {:induction false} RearrangedIsInPlace(steps: seq<Step>, t: nat, g: nat)
    requires t < |steps| && g == |NonSupport(steps, t, 0, t)| + 2
    requires IsInstall(InstallOf(steps, t)) && IsSelect(SelectOf(steps, t))
    ensures InPlace(Rearranged(steps, t), g)
  {
    hide IsInstall, IsSelect, NonSupport, InstallOf, SelectOf;
    NonSupportHolds(steps, t, 0, t);
    NonSupportHolds(steps, t, t + 1, |steps|);
    var a, b, u := NonSupport(steps, t, 0, t), NonSupport(steps, t, t + 1, |steps|), Rearranged(steps, t);
    assert forall i: nat | i < g - 2 :: u[i] == a[i] && a[i] in a;
    assert forall i: nat | g < i < |u| :: u[i] == b[i - g - 1] && b[i - g - 1] in b;
  }

  lemma {:induction false} InPlaceInstallIsFirst(steps: seq<Step>, t: nat)
    requires InPlace(steps, t)
    ensures First(steps, t, false, 0) == t - 2
    ensures InstallOf(steps, t) == steps[t - 2]
  {
    hide IsInstall, IsSelect, NewInstall;
    KindsDiffer();
    var f := First(steps, t, false, 0);
    assert f < |steps| ==> f == t - 2;
  }

  lemma {:induction false} InPlaceIsFixed(steps: seq<Step>, t: nat)
    requires InPlace(steps, t) && steps[t - 2].Step? && Refresh(steps[t - 2]) == steps[t - 2]
    ensures Refreshed(steps, t) == steps && Arranged(steps, t) == steps
  {
    hide IsInstall, IsSelect, Refresh, First, InstallOf, Rearranged;
    InPlaceInstallIsFirst(steps, t);
  }

  /** Ensuring the support steps of the target again changes nothing. */
  lemma {:induction false} ArrangedOnce(steps: seq<Step>, t: nat)
    requires t < |steps|
    ensures var u, g := Arranged(steps, t), TargetAfter(steps, t);
            g < |u| && InPlace(Refreshed(u, g), g) && Arranged(u, g) == u
  {
    hide IsInstall, IsSelect, Refresh, Refreshed, NonSupport, InstallOf, SelectOf;
    var s := Refreshed(steps, t);
    PairKinds(steps, t);
    if InPlace(s, t) {
      InPlaceInstallIsFirst(s, t);
      InPlaceIsFixed(s, t);
    } else {
      var g := |NonSupport(s, t, 0, t)| + 2;
      RearrangedIsInPlace(s, t, g);
      assert Rearranged(s, t)[g - 2] == InstallOf(s, t);
      InPlaceIsFixed(Rearranged(s, t), g);
    }
  }

  /** Rearranging moves the first step of each kind, or puts a new one, right before the target, the install step first,
      and drops their repeats; everything else stays in order. */
  lemma {:induction false} RearrangedExactly(steps: seq<Step>, t: nat, i: nat, select: bool)
    requires t < |steps|
    ensures var u, a := Rearranged(steps, t), |NonSupport(steps, t, 0, t)|;
            && a + 2 < |u| && u[..a] + u[a + 2..] == NonSupport(steps, t, 0, |steps|)
            && ((forall j: nat | j < |steps| && j != t :: !OfKind(steps[j], select)) ==>
                  u[if select then a + 1 else a] == if select then NewSelect() else NewInstall())
            && (i < |steps| && i != t && OfKind(steps[i], select)
                && (forall j: nat | j < i && j != t :: !OfKind(steps[j], select)) ==>
                  u[if select then a + 1 else a] == steps[i])
  {
    hide OfKind, IsInstall, IsSelect, NonSupport, NewInstall, NewSelect;
    var before, after := NonSupport(steps, t, 0, t), NonSupport(steps, t, t + 1, |steps|);
    RestOf(steps, t, 0, |steps|, t);
    NonSupportEnds(steps, t);
    var u, a, f := Rearranged(steps, t), |before|, First(steps, t, select, 0);
    assert u[..a] == before && u[a + 2..] == [steps[t]] + after;
    assert u[a] == InstallOf(steps, t) && u[a + 1] == SelectOf(steps, t);
    if i < |steps| && i != t && OfKind(steps[i], select)
       && (forall j: nat | j < i && j != t :: !OfKind(steps[j], select)) {
      assert f <= i && f >= i;
    }
    if forall j: nat | j < |steps| && j != t :: !OfKind(steps[j], select) {
      assert f == |steps|;
    }
  }
}
