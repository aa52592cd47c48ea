/** Lines of a GitHub Actions workflow: their text, and the shape the patcher sees in it. */
module WorkflowLines {
  import opened PyStrings
  import opened StepBlocks

  /** A line without its leading blanks, together with the shape that `Read` finds in it. */
  datatype Line = Line(text: string, shape: Shape) {
    function Indent(): nat { shape.indent }
  }

  function KindOf(text: string): Kind {
    if text == "" then Kind.Blank
    else if text[0] == '-' then Kind.Dash
    else if "run:" <= text then RunKey
    else if "env:" <= text then EnvKey
    else if "steps:" <= text then StepsKey
    else if "strategy:" <= text then StrategyKey
    else if "matrix:" <= text then MatrixKey
    else if "mode:" <= text then ModeKey
    else Other
  }

  /** The line with `text` after `indent` blanks. */
  function Read(indent: nat, text: string): Line {
    Line(text, Shape(indent, KindOf(text), RunsPytest(text)))
  }

  predicate WellRead(l: Line) { l == Read(l.Indent(), l.text) }

  function Shapes(ls: seq<Line>): (t: Text)
    ensures |t| == |ls|
    ensures forall k | 0 <= k < |ls| :: t[k] == ls[k].shape
  {
    seq(|ls|, k requires 0 <= k < |ls| => ls[k].shape)
  }

  // ---------------------------------------------------------------- the word pytest

  predicate WordChar(c: char) {
    'a' <= c <= 'z' || 'A' <= c <= 'Z' || '0' <= c <= '9' || c == '_' || 128 as char <= c
  }

  predicate Either(c: char, lower: char, upper: char) { c == lower || c == upper }

  predicate PytestAt(s: string, i: nat) {
    && i + 6 <= |s|
    && Either(s[i], 'p', 'P') && Either(s[i + 1], 'y', 'Y') && Either(s[i + 2], 't', 'T')
    && Either(s[i + 3], 'e', 'E') && Either(s[i + 4], 's', 'S') && Either(s[i + 5], 't', 'T')
  }

  predicate PytestWordAt(s: string, i: nat) {
    PytestAt(s, i) && (i == 0 || !WordChar(s[i - 1])) && (i + 6 == |s| || !WordChar(s[i + 6]))
  }

  predicate HasPytestWord(s: string) {
    exists i: nat | i < |s| :: PytestWordAt(s, i)
  }

  predicate OccursAt(s: string, pattern: string, i: nat) {
    i + |pattern| <= |s| && forall k: nat | k < |pattern| :: Lower(s[i + k]) == pattern[k]
  }

  predicate Mentions(s: string, pattern: string) {
    exists i: nat | i <= |s| :: OccursAt(s, pattern, i)
  }

  predicate InstallsPackages(s: string) {
    Mentions(s, "pip install") || Mentions(s, "pip3 install") || Mentions(s, "pipenv install")
  }

  /** The whole word pytest, in any case, on a line that does not install packages. */
  predicate RunsPytest(s: string) {
    HasPytestWord(s) && !InstallsPackages(s)
  }

  lemma {:induction false} WordsSplitAtBlank(a: string, b: string)
    requires a != "" && a[|a| - 1] == ' '
    requires !HasPytestWord(a) && !HasPytestWord(b)
    ensures !HasPytestWord(a + b)
  {
    var s := a + b;
    forall i: nat | i < |s|
      ensures !PytestWordAt(s, i)
    {
      if PytestWordAt(s, i) {
        if i + 6 <= |a| {
          assert s[i + 5] == a[i + 5];
          assert PytestWordAt(a, i);
        } else if |a| <= i {
          var j := i - |a|;
          assert b == s[|a|..];
          assert j > 0 ==> s[i - 1] == b[j - 1];
          assert i + 6 < |s| ==> s[i + 6] == b[j + 6];
          assert PytestWordAt(b, j);
        }
      }
    }
  }

  // ---------------------------------------------------------------- fixed texts

  const RUNNER_COMMAND := RUNNER_PYTHON + RUNNER_TAIL
  const RUNNER_TAIL := RUNNER_SCRIPT + (RUNNER_MODE + (RUNNER_FLUSH + (RUNNER_PROBE + RUNNER_SAMPLES)))
  const RUNNER_PYTHON := "python "
  const RUNNER_SCRIPT := "tools/ci_pytest_runner.py "
  const RUNNER_MODE := "--mode ${{ matrix.mode }} "
  const RUNNER_FLUSH := "--flush-redis auto "
  const RUNNER_PROBE := "--probe-mw-order auto "
  const RUNNER_SAMPLES := "--p95-samples 5"

  const PIP_INSTALL := "pip install "
  const UPGRADE_PIP := RUNNER_PYTHON + "-m pip install -U pip"
  const INSTALL_EXTRAS := PIP_INSTALL + "-e \".[fastapi,redis,dev]\" || true"
  const INSTALL_TESTING := PIP_INSTALL + TESTING_PACKAGES
  const TESTING_PACKAGES := TESTING_WEB + (TESTING_TOOLS + TESTING_STORES)
  const TESTING_WEB := "fastapi uvicorn httpx "
  const TESTING_TOOLS := "pytest pytest-asyncio "
  const TESTING_STORES := "redis prometheus-client"
  const INSTALL_SUPPORT := PIP_INSTALL + "aiohttp sqlalchemy python-dateutil"
  const INSTALL_RUN_COMMANDS := [UPGRADE_PIP, INSTALL_EXTRAS, INSTALL_TESTING, INSTALL_SUPPORT]

  const INSTALL_STEP_NAME := "Install dependencies (with extras)"
  const SELECT_STEP_NAME := "Select mode env"
  const RUNNER_STEP_SUFFIX := " (via CI runner)"

  predicate NoLetterY(s: string) { forall i: nat | i < |s| :: s[i] != 'y' && s[i] != 'Y' }

  lemma {:induction false} RunnerPython() ensures !HasPytestWord(RUNNER_PYTHON) {}

  /** The word in the name of the runner follows an underscore. */
  lemma {:induction false} RunnerScript() ensures !HasPytestWord(RUNNER_SCRIPT) {
    assert |RUNNER_SCRIPT| == 26 && RUNNER_SCRIPT[8] == '_';
    assert forall i: nat | i < 26 && i != 10 && i != 24 :: RUNNER_SCRIPT[i] != 'y' && RUNNER_SCRIPT[i] != 'Y';
    TwoYsNoPytest(RUNNER_SCRIPT, 10, 24);
  }

  lemma {:induction false} TwoYsNoPytest(s: string, j: nat, k: nat)
    requires forall i: nat | i < |s| && i != j && i != k :: s[i] != 'y' && s[i] != 'Y'
    requires 1 < j < |s| && WordChar(s[j - 2]) && |s| < k + 5
    ensures !HasPytestWord(s)
  {
    forall i: nat | i < |s|
      ensures !PytestWordAt(s, i)
    {
      assert PytestAt(s, i) ==> i + 1 == j || i + 1 == k;
    }
  }

  lemma {:induction false} RunnerMode() ensures NoLetterY(RUNNER_MODE) {}
  lemma {:induction false} RunnerFlush() ensures NoLetterY(RUNNER_FLUSH) {}
  lemma {:induction false} RunnerProbe() ensures NoLetterY(RUNNER_PROBE) {}
  lemma {:induction false} RunnerSamples() ensures NoLetterY(RUNNER_SAMPLES) {}

  predicate Word(s: string) { s != "" && s[|s| - 1] == ' ' && !HasPytestWord(s) }

  lemma {:induction false} FiveWords(a: string, b: string, c: string, d: string, e: string)
    requires Word(a) && Word(b) && Word(c) && Word(d) && !HasPytestWord(e)
    ensures !HasPytestWord(a + (b + (c + (d + e))))
  {
    WordsSplitAtBlank(d, e);
    WordsSplitAtBlank(c, d + e);
    WordsSplitAtBlank(b, c + (d + e));
    WordsSplitAtBlank(a, b + (c + (d + e)));
  }

  lemma {:induction false} RunnerCommandHasNoPytestWord()
    ensures !HasPytestWord(RUNNER_COMMAND)
  {
    RunnerScript(); RunnerMode(); RunnerFlush(); RunnerProbe(); RunnerSamples();
    FiveWords(RUNNER_SCRIPT, RUNNER_MODE, RUNNER_FLUSH, RUNNER_PROBE, RUNNER_SAMPLES);
    RunnerPython();
    WordsSplitAtBlank(RUNNER_PYTHON, RUNNER_TAIL);
  }

  // ---------------------------------------------------------------- lines the patcher writes

  predicate OnlyLetterYAt(s: string, k: nat) {
    forall i: nat | i < |s| && i != k :: s[i] != 'y' && s[i] != 'Y'
  }

  lemma {:induction false} OneYNoPytest(s: string, k: nat)
    requires 0 < k && OnlyLetterYAt(s, k) && !PytestWordAt(s, k - 1)
    ensures !HasPytestWord(s)
  {
  }

  const RUN_HEADER := "run: |"
  const ENV_KEY := "env:"
  const ENV_FLAG := "PYTEST_DISABLE_PLUGIN_AUTOLOAD"
  const ENV_FLAG_LINE := ENV_FLAG + ": '1'"
  const STRATEGY_KEY := "strategy:"
  const MATRIX_KEY := "matrix:"
  const MODE_LINE := "mode: [stub, redis]"

  predicate QuietText(s: string) { KindOf(s) == Other && !RunsPytest(s) }

  lemma {:induction false} QuietTextReadsQuiet(s: string)
    requires QuietText(s)
    ensures forall n: nat :: Read(n, s).shape == Shape(n, Other, false)
  {
  }

  lemma {:induction false} KeyStarts()
    ensures "run:"[0] == 'r' && "env:"[0] == 'e' && "steps:"[0] == 's' && "strategy:"[0] == 's' && "matrix:"[0] == 'm'
    ensures "mode:"[0] == 'm'
    ensures "env:"[1] == 'n' && "steps:"[2] == 'e' && "strategy:"[2] == 'r' && "matrix:"[1] == 'a' && "mode:"[1] == 'o'
  {
  }

  lemma {:induction false} OtherKey(s: string, first: char)
    requires s != "" && s[0] == first && first != '-' && first != 'r' && first != 'e' && first != 's' && first != 'm'
    ensures KindOf(s) == Other
  {
    KeyStarts();
  }

  lemma {:induction false} RunnerCommandIsQuiet()
    ensures QuietText(RUNNER_COMMAND)
  {
    RunnerCommandHasNoPytestWord();
    StartsWithPython(RUNNER_TAIL);
    OtherKey(RUNNER_COMMAND, 'p');
  }

  lemma {:induction false} StartsWithPython(rest: string)
    ensures (RUNNER_PYTHON + rest)[0] == 'p'
  {
  }

  function RunnerLine(indent: nat): (l: Line)
    ensures WellRead(l) && l.shape == Shape(indent, Other, false) && l.text == RUNNER_COMMAND
  {
    RunnerCommandIsQuiet();
    Read(indent, RUNNER_COMMAND)
  }

  function RunHeader(indent: nat): (l: Line)
    ensures WellRead(l) && l.shape == Shape(indent, RunKey, false) && l.text == RUN_HEADER
  {
    assert NoLetterY(RUN_HEADER);
    assert RUN_HEADER[..4] == "run:";
    Read(indent, RUN_HEADER)
  }

  lemma {:induction false} EnvFlagIsQuiet()
    ensures QuietText(ENV_FLAG_LINE)
  {
    assert OnlyLetterYAt(ENV_FLAG_LINE, 1);
    OneYNoPytest(ENV_FLAG_LINE, 1);
    OtherKey(ENV_FLAG_LINE, 'P');
  }

  function EnvFlagLine(indent: nat): (l: Line)
    ensures WellRead(l) && l.shape == Shape(indent, Other, false) && l.text == ENV_FLAG_LINE
  {
    EnvFlagIsQuiet();
    Read(indent, ENV_FLAG_LINE)
  }

  function EnvLine(indent: nat): (l: Line)
    ensures WellRead(l) && l.shape == Shape(indent, EnvKey, false) && l.text == ENV_KEY
  {
    KeyStarts();
    assert NoLetterY(ENV_KEY);
    Read(indent, ENV_KEY)
  }

  function StrategyLine(indent: nat): (l: Line)
    ensures WellRead(l) && l.shape == Shape(indent, StrategyKey, false) && l.text == STRATEGY_KEY
  {
    KeyStarts();
    Read(indent, STRATEGY_KEY)
  }

  function MatrixLine(indent: nat): (l: Line)
    ensures WellRead(l) && l.shape == Shape(indent, MatrixKey, false) && l.text == MATRIX_KEY
  {
    KeyStarts();
    assert NoLetterY(MATRIX_KEY);
    Read(indent, MATRIX_KEY)
  }

  function ModeLine(indent: nat): (l: Line)
    ensures WellRead(l) && l.shape == Shape(indent, ModeKey, false) && l.text == MODE_LINE
  {
    KeyStarts();
    assert NoLetterY(MODE_LINE);
    assert MODE_LINE[..5] == "mode:";
    Read(indent, MODE_LINE)
  }

  // ---------------------------------------------------------------- the support steps

  /** A script, each command at the given indentation. */
  function Indented(commands: seq<string>, indent: nat): (ls: seq<Line>)
    ensures |ls| == |commands|
    ensures forall k | 0 <= k < |ls| :: ls[k] == Read(indent, commands[k])
  {
    seq(|commands|, k requires 0 <= k < |commands| => Read(indent, commands[k]))
  }

  ghost predicate QuietScript(commands: seq<string>) {
    forall k | 0 <= k < |commands| :: QuietText(commands[k])
  }

  lemma {:induction false} PipInstallIsQuiet(rest: string)
    ensures QuietText(PIP_INSTALL + rest)
  {
    assert OccursAt(PIP_INSTALL + rest, "pip install", 0);
    OtherKey(PIP_INSTALL + rest, 'p');
  }

  lemma {:induction false} UpgradePipIsQuiet()
    ensures QuietText(UPGRADE_PIP)
  {
    RunnerPython();
    assert NoLetterY("-m pip install -U pip");
    WordsSplitAtBlank(RUNNER_PYTHON, "-m pip install -U pip");
    StartsWithPython("-m pip install -U pip");
    OtherKey(UPGRADE_PIP, 'p');
  }

  lemma {:induction false} InstallExtrasIsQuiet() ensures QuietText(INSTALL_EXTRAS) {
    PipInstallIsQuiet("-e \".[fastapi,redis,dev]\" || true");
  }

  lemma {:induction false} InstallTestingIsQuiet() ensures QuietText(INSTALL_TESTING) {
    PipInstallIsQuiet(TESTING_PACKAGES);
  }

  lemma {:induction false} InstallSupportIsQuiet() ensures QuietText(INSTALL_SUPPORT) {
    PipInstallIsQuiet("aiohttp sqlalchemy python-dateutil");
  }

  lemma {:induction false} FourQuiet(a: string, b: string, c: string, d: string)
    requires QuietText(a) && QuietText(b) && QuietText(c) && QuietText(d)
    ensures QuietScript([a, b, c, d])
  {
  }

  lemma {:induction false} InstallScriptIsQuiet()
    ensures QuietScript(INSTALL_RUN_COMMANDS)
  {
    UpgradePipIsQuiet();
    InstallExtrasIsQuiet();
    InstallTestingIsQuiet();
    InstallSupportIsQuiet();
    FourQuiet(UPGRADE_PIP, INSTALL_EXTRAS, INSTALL_TESTING, INSTALL_SUPPORT);
  }

  const SELECT_IF := "if [ \"${{ matrix.mode }}\" = \"stub\" ]; then"
  const SELECT_STUB := "echo \"TEST_REDIS_STUB=1\" >> $GITHUB_ENV"
  const SELECT_ELSE := "else"
  const SELECT_REDIS := ECHO + PYTEST_REDIS
  const ECHO := "echo "
  const PYTEST_REDIS := "\"PYTEST_REDIS=1\" >> $GITHUB_ENV"
  const SELECT_FI := "fi"
  const SELECT_COMMANDS := [SELECT_IF, SELECT_STUB, SELECT_ELSE, SELECT_REDIS, SELECT_FI]

  lemma {:induction false} SelectIfIsQuiet() ensures QuietText(SELECT_IF) {
    assert NoLetterY(SELECT_IF);
    OtherKey(SELECT_IF, 'i');
  }

  lemma {:induction false} NotAKey(s: string, second: char)
    requires |s| > 1 && s[0] == 'e' && s[1] == second && second != 'n'
    ensures KindOf(s) == Other
  {
    KeyStarts();
  }

  lemma {:induction false} SelectStubIsQuiet() ensures QuietText(SELECT_STUB) {
    assert NoLetterY(SELECT_STUB);
    NotAKey(SELECT_STUB, 'c');
  }

  lemma {:induction false} SelectElseIsQuiet() ensures QuietText(SELECT_ELSE) {
    assert NoLetterY(SELECT_ELSE);
    NotAKey(SELECT_ELSE, 'l');
  }

  lemma {:induction false} SelectRedisIsQuiet() ensures QuietText(SELECT_REDIS) {
    assert OnlyLetterYAt(PYTEST_REDIS, 2);
    OneYNoPytest(PYTEST_REDIS, 2);
    assert NoLetterY(ECHO);
    WordsSplitAtBlank(ECHO, PYTEST_REDIS);
    NotAKey(SELECT_REDIS, 'c');
  }

  lemma {:induction false} SelectFiIsQuiet() ensures QuietText(SELECT_FI) {
    assert NoLetterY(SELECT_FI);
    OtherKey(SELECT_FI, 'f');
  }

  function NameText(name: string): string { "- name: " + name }

  function NameLine(indent: nat, name: string): (l: Line)
    ensures WellRead(l) && l.Indent() == indent && l.shape.Dash() && l.text == NameText(name)
  {
    Read(indent, NameText(name))
  }

  function InstallBlock(indent: nat): (ls: seq<Line>)
    ensures |ls| == 6
    ensures ls[0] == NameLine(indent, INSTALL_STEP_NAME) && ls[1] == RunHeader(indent + 2)
    ensures ls[2..] == Indented(INSTALL_RUN_COMMANDS, indent + 4)
  {
    [NameLine(indent, INSTALL_STEP_NAME), RunHeader(indent + 2)] + Indented(INSTALL_RUN_COMMANDS, indent + 4)
  }

  function SelectBlock(indent: nat): (ls: seq<Line>)
    ensures |ls| == 7
    ensures ls[0] == NameLine(indent, SELECT_STEP_NAME) && ls[1] == RunHeader(indent + 2)
    ensures ls[2..] == SelectScript(indent + 4)
  {
    [NameLine(indent, SELECT_STEP_NAME), RunHeader(indent + 2)] + SelectScript(indent + 4)
  }

  function SelectScript(indent: nat): (ls: seq<Line>)
    ensures |ls| == 5
  {
    [Read(indent, SELECT_IF), Read(indent + 2, SELECT_STUB), Read(indent, SELECT_ELSE),
     Read(indent + 2, SELECT_REDIS), Read(indent, SELECT_FI)]
  }
}
