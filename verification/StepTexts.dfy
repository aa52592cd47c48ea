/** What the lines of a step say as they are written: which run pytest, what their names are, how a name is marked, and
    when an install script is up to date. */
module StepTexts {
  import opened PyStrings
  import opened StepBlocks
  import opened WorkflowLines
  import opened StepNames
  import opened StepRewriter
  import opened TextPatcher

  // ---------------------------------------------------------------- lines

  /** How the text of a line starts decides what the patcher takes it for. */
  lemma {:induction false} KindsOfLines(rest: string)
    ensures KindOf("") == Kind.Blank && KindOf("-" + rest) == Kind.Dash
    ensures KindOf("run:" + rest) == RunKey && KindOf("env:" + rest) == EnvKey && KindOf("steps:" + rest) == StepsKey
    ensures KindOf("strategy:" + rest) == StrategyKey && KindOf("matrix:" + rest) == MatrixKey
    ensures KindOf("mode:" + rest) == ModeKey
    ensures KindOf("name:" + rest) == Other && KindOf("python" + rest) == Other && KindOf("uses:" + rest) == Other
  {
    KeyStarts();
    assert ("run:" + rest)[..4] == "run:" && ("env:" + rest)[..4] == "env:" && ("steps:" + rest)[..6] == "steps:";
    assert ("strategy:" + rest)[..9] == "strategy:" && ("matrix:" + rest)[..7] == "matrix:";
    assert ("mode:" + rest)[..5] == "mode:";
    OtherKey("name:" + rest, 'n');
    OtherKey("python" + rest, 'p');
    OtherKey("uses:" + rest, 'u');
  }

  /** Neither a letter, nor a digit, nor an underscore, nor a character beyond ASCII. */
  predicate Break(c: char) {
    c < 128 as char && !('a' <= c <= 'z') && !('A' <= c <= 'Z') && !('0' <= c <= '9') && c != '_'
  }

  /** The word pytest, in small or in capital letters. */
  predicate IsWord(w: string) { w == "pytest" || w == "PYTEST" || w == "Pytest" }

  /** A text runs pytest if it holds the word, with no word character next to it, and installs nothing. */
  lemma {:induction false} WordRuns(a: string, w: string, b: string)
    requires IsWord(w) && (a != "" ==> Break(a[|a| - 1])) && (b != "" ==> Break(b[0]))
    ensures RunsPytest(a + w + b) <==> !InstallsPackages(a + w + b)
  {
    var s, i := a + w + b, |a|;
    assert forall k | 0 <= k < 6 :: s[i + k] == w[k];
    assert i > 0 ==> s[i - 1] == a[|a| - 1];
    assert i + 6 < |s| ==> s[i + 6] == b[0];
    assert PytestWordAt(s, i);
    hide InstallsPackages;
  }

  /** Next to a word character it is another word. */
  lemma {:induction false} OtherWord(a: string, b: string)
    requires NoLetterY(a) && NoLetterY(b) && ((a != "" && !Break(a[|a| - 1])) || (b != "" && !Break(b[0])))
    ensures !RunsPytest(a + "pytest" + b)
  {
    var s := a + "pytest" + b;
    forall i: nat | i < |s| && i != |a| + 1
      ensures s[i] != 'y' && s[i] != 'Y'
    {
      if i < |a| {
        assert s[i] == a[i];
      } else if i < |a| + 6 {
        assert s[i] == "pytest"[i - |a|];
      } else {
        assert s[i] == b[i - |a| - 6];
      }
    }
    assert a != "" ==> s[|a| - 1] == a[|a| - 1];
    assert b != "" ==> s[|a| + 6] == b[0];
    OneYNoPytest(s, |a| + 1);
    hide InstallsPackages;
  }

  /** A line that installs packages with pip, pip3 or pipenv, in any case, does not run pytest. */
  lemma {:induction false} InstallerIsQuiet(a: string, p: string, b: string)
    requires p == "pip install" || p == "pip3 install" || p == "pipenv install" || p == "Pip Install"
    ensures !RunsPytest(a + p + b)
  {
    var s, q := a + p + b, if p == "Pip Install" then "pip install" else p;
    forall k: nat | k < |q|
      ensures Lower(s[|a| + k]) == q[k]
    {
      assert s[|a| + k] == p[k];
    }
    assert OccursAt(s, q, |a|);
    assert Mentions(s, q);
    hide OccursAt;
  }

  // ---------------------------------------------------------------- names

  /** A name as it may be written: no blanks around it, and no sign of a comment or an anchor in it. */
  predicate PlainCore(c: string) {
    c != "" && !Space(c[0]) && !Space(c[|c| - 1]) && forall k | 0 <= k < |c| :: c[k] != '#' && c[k] != '&'
  }

  /** A comment, set off by a space. */
  predicate SetOffComment(space: string, comment: string) {
    space != "" && AllSpaces(space) && comment != "" && comment[0] == '#'
  }

  predicate AnchorName(a: string) { a != "" && forall k | 0 <= k < |a| :: !Space(a[k]) && a[k] != '#' }

  /** What may follow a name: spaces; a comment; an anchor; or an anchor and a comment. */
  datatype Tail = Spaces(space: string) | Remark(space: string, comment: string) | Anchor(space: string, name: string)
                | AnchorRemark(space: string, name: string, gap: string, comment: string) {
    function Text(): string {
      match this
      case Spaces(s) => s
      case Remark(s, c) => s + c
      case Anchor(s, n) => s + "&" + n
      case AnchorRemark(s, n, g, c) => s + "&" + n + g + c
    }

    predicate Valid() {
      match this
      case Spaces(s) => AllSpaces(s)
      case Remark(s, c) => SetOffComment(s, c)
      case Anchor(s, n) => AllSpaces(s) && AnchorName(n)
      case AnchorRemark(s, n, g, c) => AllSpaces(s) && AnchorName(n) && SetOffComment(g, c)
    }
  }

  lemma {:induction false} CommentIs(space: string, comment: string)
    requires SetOffComment(space, comment)
    ensures Comment(space + comment) && LeadingSpaces(space + comment) == |space|
  {
    LeadingSpacesAre(space, comment);
  }

  lemma {:induction false} AnchorRunIs(name: string, rest: string)
    requires (forall k | 0 <= k < |name| :: AnchorChar(name[k])) && (rest != "" ==> !AnchorChar(rest[0]))
    ensures AnchorRun(name + rest) == |name|
  {
    if name == "" {
      assert name + rest == rest;
    } else {
      assert (name + rest)[1..] == name[1..] + rest;
      AnchorRunIs(name[1..], rest);
    }
  }

  lemma {:induction false} AnchorIsTrailer(space: string, name: string, rest: string)
    requires AllSpaces(space) && AnchorName(name) && CommentOrEnd(rest) && (rest != "" ==> Space(rest[0]))
    ensures IsTrailer(space + "&" + name + rest)
  {
    var s := space + "&" + name + rest;
    assert s == space + ("&" + name + rest);
    LeadingSpacesAre(space, "&" + name + rest);
    assert s[|space| + 1..] == name + rest;
    AnchorRunIs(name, rest);
    assert (name + rest)[|name|..] == rest;
  }

  /** Everything that may follow a name but mere spaces is a trailer. */
  lemma {:induction false} TailIsTrailer(t: Tail)
    requires t.Valid() && !t.Spaces?
    ensures IsTrailer(t.Text())
  {
    hide IsTrailer, CommentOrEnd, Comment;
    match t
    case Remark(s, c) =>
      CommentIs(s, c);
      CommentTrails(s + c);
    case Anchor(s, n) =>
      EndTrails();
      AnchorIsTrailer(s, n, "");
      assert s + "&" + n + "" == s + "&" + n;
    case AnchorRemark(s, n, g, c) =>
      CommentIs(g, c);
      CommentTrails(g + c);
      AnchorIsTrailer(s, n, g + c);
      assert s + "&" + n + (g + c) == s + "&" + n + g + c;
  }

  lemma {:induction false} CommentTrails(s: string)
    requires Comment(s)
    ensures CommentOrEnd(s) && IsTrailer(s)
  {
  }

  lemma {:induction false} EndTrails()
    ensures CommentOrEnd("") && IsTrailer("")
  {
  }

  /** In a name, no trailer starts. */
  lemma {:induction false} NoTrailerInName(core: string, rest: string, i: nat)
    requires PlainCore(core) && i < |core|
    ensures !IsTrailer((core + rest)[i..]) && (core + rest)[i..] == core[i..] + rest
    ensures !Comment((core + rest)[i..]) && !AtAnchor((core + rest)[i..])
  {
    var s := core[i..] + rest;
    assert (core + rest)[i..] == s;
    var k := LeadingSpaces(s);
    assert s[|core| - 1 - i] == core[|core| - 1];
    assert k < |core| - i && s[k] == core[i + k];
  }

  lemma {:induction false} NoTrailerInSpaces(s: string)
    requires AllSpaces(s) && s != ""
    ensures !IsTrailer(s)
  {
    assert LeadingSpaces(s) == |s|;
  }

  lemma {:induction false} NameEndsBeforeTail(core: string, t: Tail)
    requires PlainCore(core) && t.Valid()
    ensures NameEnd(core + t.Text()) == |core| + if t.Spaces? then |t.space| else 0
    ensures Rstrip((core + t.Text())[..NameEnd(core + t.Text())]) == core
  {
    hide IsTrailer, NameEnd, Rstrip, PlainCore;
    var s, n := core + t.Text(), |core| + if t.Spaces? then |t.space| else 0;
    forall i: nat | i < n
      ensures !IsTrailer(s[i..])
    {
      if i < |core| {
        NoTrailerInName(core, t.Text(), i);
      } else {
        assert s[i..] == t.space[i - |core|..];
        NoTrailerInSpaces(s[i..]);
      }
    }
    if t.Spaces? {
      assert s[n..] == "";
      EndTrails();
    } else {
      assert s[n..] == t.Text();
      TailIsTrailer(t);
    }
    NameEndIs(s, n);
    CoreEnds(core);
    RstripIs(core, if t.Spaces? then t.space else "");
    assert s[..n] == core + if t.Spaces? then t.space else "";
  }

  lemma {:induction false} CoreEnds(core: string)
    requires PlainCore(core)
    ensures core != "" && !Space(core[0]) && !Space(core[|core| - 1]) && core[0] != ' '
  {
  }

  /** The head of a name line: `name:`, or a dash before it, and blanks. */
  predicate IsHead(h: string, dash: string, blanks: string) {
    && h == dash + "name:" + blanks && (dash == "" || (dash[0] == '-' && AllSpaces(dash[1..])))
    && forall k | 0 <= k < |blanks| :: blanks[k] == ' '
  }

  lemma {:induction false} HeaderIs(dash: string, body: string)
    requires (dash == "" || (dash[0] == '-' && AllSpaces(dash[1..]))) && "name:" <= body
    ensures HeaderLength(dash + body) == Some(|dash| + 5)
  {
    hide LeadingSpaces;
    var s := dash + body;
    assert body[..5] == "name:" && body[0] == 'n';
    if dash == "" {
      assert s == body && s[0..] == body;
    } else {
      assert s[1..] == dash[1..] + body;
      LeadingSpacesAre(dash[1..], body);
      assert s[|dash|..] == body;
    }
  }

  lemma {:induction false} HeadIs(h: string, dash: string, blanks: string, rest: string)
    requires IsHead(h, dash, blanks) && (rest != "" ==> rest[0] != ' ')
    ensures HeaderLength(h + rest) == Some(|dash| + 5) && HeadLength(h + rest) == Some(|h|)
    ensures (h + rest)[|dash| + 5..] == blanks + rest
  {
    hide HeaderLength;
    var body := "name:" + blanks + rest;
    assert body[..5] == "name:";
    HeaderIs(dash, body);
    assert h + rest == dash + body;
    assert (h + rest)[|dash| + 5..] == blanks + rest;
    LeadingBlanksIs(blanks + rest, |blanks|);
  }

  /** A name, written with quotes or without. */
  datatype WrittenName = Bare(core: string) | InQuotes(quote: char, inner: string) {
    function Text(): string { if Bare? then core else [quote] + inner + [quote] }

    predicate Valid() {
      PlainCore(Text()) && (Bare? ==> |core| < 2 || (core[0] != '\'' && core[0] != '"') || core[|core| - 1] != core[0])
          && (InQuotes? ==> quote == '\'' || quote == '"')
    }

    function Name(): string { if Bare? then core else inner }

    /** The name with the suffix behind it, unless it ends with it. */
    function Marked(): WrittenName {
      if EndsWith(Name(), " (via CI runner)") then this else Renamed(Name() + " (via CI runner)")
    }

    function Renamed(name: string): WrittenName { if Bare? then Bare(name) else InQuotes(quote, name) }
  }

  /** The suffix is put behind the name, inside its quotes and before anchor and comment, unless the name ends with it;
      nothing else on the line changes. */
  lemma {:induction false} NameIsMarked(h: string, dash: string, blanks: string, n: WrittenName, t: Tail)
    requires IsHead(h, dash, blanks) && n.Valid() && t.Valid()
    ensures AppendSuffix(h + (n.Text() + t.Text())) == h + (n.Marked().Text() + t.Text())
  {
    hide NameEnd, Rstrip, HeadLength, IsHead, PlainCore;
    var rest := n.Text() + t.Text();
    CoreEnds(n.Text());
    assert rest[0] == n.Text()[0];
    HeadIs(h, dash, blanks, rest);
    NameEndsBeforeTail(n.Text(), t);
    assert (h + rest)[..|h|] == h && (h + rest)[|h|..] == rest;
    assert rest[|n.Text()|..] == t.Text();
    MarkIs(n);
    hide MarkName;
  }

  lemma {:induction false} MarkIs(n: WrittenName)
    requires n.Valid()
    ensures MarkName(n.Text()) == n.Marked().Text()
  {
    hide PlainCore, EndsWith;
    if n.InQuotes? {
      assert n.Text()[1..|n.Text()| - 1] == n.inner;
    }
  }

  /** A line that is no name line stays as it is. */
  lemma {:induction false} OtherLineUnmarked(s: string)
    requires HeadLength(s).None?
    ensures AppendSuffix(s) == s
  {
  }

  lemma {:induction false} EndsExactly(s: string, suffix: string)
    ensures EndsWith(s, suffix) <==> exists p: string :: s == p + suffix
  {
    if EndsWith(s, suffix) {
      assert s == s[..|s| - |suffix|] + suffix;
    }
    if p: string :| s == p + suffix {
      assert s[|s| - |suffix|..] == suffix;
    }
  }

  // ---------------------------------------------------------------- the install script

  /** The commands of the install script, in order. */
  lemma {:induction false} InstallCommands()
    ensures INSTALL_RUN_COMMANDS == [UPGRADE_PIP, INSTALL_EXTRAS, INSTALL_TESTING, INSTALL_SUPPORT]
    ensures UPGRADE_PIP == "python " + "-m pip install -U pip"
    ensures INSTALL_EXTRAS == "pip install " + "-e \".[fastapi,redis,dev]\" || true"
    ensures INSTALL_TESTING
            == "pip install " + ("fastapi uvicorn httpx " + ("pytest pytest-asyncio " + "redis prometheus-client"))
    ensures INSTALL_SUPPORT == "pip install " + "aiohttp sqlalchemy python-dateutil"
  {
  }

  /** The runner command, the select script, and the names the patcher writes. */
  lemma {:induction false} RunnerAndNames()
    ensures RUNNER_COMMAND
         == "python " + ("tools/ci_pytest_runner.py " + ("--mode ${{ matrix.mode }} " + ("--flush-redis auto "
            + ("--probe-mw-order auto " + "--p95-samples 5"))))
    ensures SELECT_COMMANDS == ["if [ \"${{ matrix.mode }}\" = \"stub\" ]; then",
                                "echo \"TEST_REDIS_STUB=1\" >> $GITHUB_ENV", "else",
                                "echo " + "\"PYTEST_REDIS=1\" >> $GITHUB_ENV", "fi"]
    ensures INSTALL_STEP_NAME == "Install dependencies (with extras)" && SELECT_STEP_NAME == "Select mode env"
    ensures RUNNER_STEP_SUFFIX == " (via CI runner)" && RUN_HEADER == "run: |"
    ensures NEW_NAME == "Run pytest suite" + " (via CI runner)"
  {
  }

  /** The header of the run key is `run: |`, and the script consists of the commands, one on each line. */
  predicate Current(header: Line, script: seq<Line>) {
    header.text == "run: |" && |script| == |INSTALL_RUN_COMMANDS|
    && forall k | 0 <= k < |script| :: Strip(script[k].text) == INSTALL_RUN_COMMANDS[k]
  }

  /** The install step is up to date exactly if its script is current; otherwise the whole script is replaced. */
  lemma {:induction false} UpToDateExactly(pre: seq<Line>, header: Line, script: seq<Line>, post: seq<Line>)
    requires (forall k | 0 <= k < |pre| :: !pre[k].shape.Run()) && header.shape.Run()
    requires forall k | 0 <= k < |script| :: header.Indent() < script[k].Indent()
    requires post != [] ==> post[0].Indent() <= header.Indent()
    ensures Outdated(pre + [header] + script + post)
         == if Current(header, script) then None else Some((|pre|, |pre| + 1 + |script|))
  {
    var b := pre + [header] + script + post;
    ScriptExtent(pre, header, script, post);
    OutdatedWithin(b, |pre|, |pre| + 1 + |script|);
    CurrentHolds(header, script);
    hide Outdated, FirstRunKey, TailOf, INSTALL_RUN_COMMANDS, Strip, Current, HoldsScript;
    assert b[|pre|] == header;
    assert b[|pre| + 1..|pre| + 1 + |script|] == script;
  }

  lemma {:induction false} CurrentHolds(header: Line, script: seq<Line>)
    ensures Current(header, script) <==> header.text == "run: |" && HoldsScript(script, INSTALL_RUN_COMMANDS)
  {
    hide INSTALL_RUN_COMMANDS, Strip;
  }

  lemma {:induction false} OutdatedWithin(b: seq<Line>, q: nat, p: nat)
    requires q < p <= |b| && FirstRunKey(b, 0) == q && TailOf(b, q + 1, b[q].Indent()) == p
    ensures Outdated(b)
         == if b[q].text == "run: |" && HoldsScript(b[q + 1..p], INSTALL_RUN_COMMANDS) then None else Some((q, p))
  {
    hide FirstRunKey, TailOf, INSTALL_RUN_COMMANDS, HoldsScript;
  }

  lemma {:induction false} ScriptExtent(pre: seq<Line>, header: Line, script: seq<Line>, post: seq<Line>)
    requires (forall k | 0 <= k < |pre| :: !pre[k].shape.Run()) && header.shape.Run()
    requires forall k | 0 <= k < |script| :: header.Indent() < script[k].Indent()
    requires post != [] ==> post[0].Indent() <= header.Indent()
    ensures var b := pre + [header] + script + post;
            FirstRunKey(b, 0) == |pre| && TailOf(b, |pre| + 1, header.Indent()) == |pre| + 1 + |script|
  {
    var b := pre + [header] + script + post;
    var q, p := |pre|, |pre| + 1 + |script|;
    assert forall k | 0 <= k < q :: b[k] == pre[k];
    assert b[q] == header;
    assert forall k | q < k < p :: b[k] == script[k - q - 1];
    assert p < |b| ==> b[p] == post[0];
  }

  /** A step without a run key has no script to replace. */
  lemma {:induction false} NothingOutdated(b: seq<Line>)
    requires forall k | 0 <= k < |b| :: !b[k].shape.Run()
    ensures Outdated(b).None?
  {
  }

  // ---------------------------------------------------------------- reading a name

  /** A text without the sign, which no spaces join to what follows. */
  predicate Free(body: string, rest: string, sign: char) {
    && (forall k | 0 <= k < |body| :: body[k] != sign)
    && (rest == "" || body == "" || !Space(body[|body| - 1]))
  }

  lemma {:induction false} NoSignInBody(body: string, rest: string, sign: char, i: nat)
    requires Free(body, rest, sign) && !Space(sign) && i < |body|
    ensures var s := (body + rest)[i..];
            s == body[i..] + rest && (LeadingSpaces(s) < |s| ==> s[LeadingSpaces(s)] != sign)
  {
    var s := body[i..] + rest;
    assert (body + rest)[i..] == s;
    var k := LeadingSpaces(s);
    if rest == "" {
      assert k < |s| ==> s[k] == body[i + k];
    } else {
      assert s[|body| - 1 - i] == body[|body| - 1];
      assert s[k] == body[i + k];
    }
  }

  lemma {:induction false} CommentCut(body: string, rest: string, i: nat)
    requires Free(body, rest, '#') && (rest == "" || Comment(rest)) && i <= |body|
    ensures CutComment((body + rest)[i..]) == body[i..]
    decreases |body| - i
  {
    hide Free;
    var s := (body + rest)[i..];
    if i < |body| {
      NoSignInBody(body, rest, '#', i);
      CommentCut(body, rest, i + 1);
      assert s[1..] == (body + rest)[i + 1..] && s[0] == body[i];
      assert body[i..] == [body[i]] + body[i + 1..];
    } else {
      assert s == rest;
    }
  }

  lemma {:induction false} AnchorCut(body: string, rest: string, i: nat)
    requires Free(body, rest, '&') && (rest == "" || AtAnchor(rest)) && i <= |body|
    ensures CutAnchor((body + rest)[i..]) == body[i..]
    decreases |body| - i
  {
    hide Free;
    var s := (body + rest)[i..];
    if i < |body| {
      NoSignInBody(body, rest, '&', i);
      AnchorCut(body, rest, i + 1);
      assert s[1..] == (body + rest)[i + 1..] && s[0] == body[i];
      assert body[i..] == [body[i]] + body[i + 1..];
    } else {
      assert s == rest;
    }
  }

  lemma {:induction false} CutBoth(core: string, anchor: string, comment: string)
    requires (comment == "" || Comment(comment)) && (anchor == "" || AtAnchor(anchor))
    requires Free(core + anchor, comment, '#') && Free(core, anchor, '&')
    ensures CutAnchor(CutComment(core + anchor + comment)) == core
  {
    hide CutComment, CutAnchor, Comment, AtAnchor, Free;
    CommentCut(core + anchor, comment, 0);
    AnchorCut(core, anchor, 0);
    assert (core + anchor + comment)[0..] == core + anchor + comment && (core + anchor)[0..] == core + anchor;
    assert core[0..] == core;
  }

  lemma {:induction false} AnchorStarts(core: string, space: string, name: string, comment: string)
    requires PlainCore(core) && AllSpaces(space) && AnchorName(name)
    ensures AtAnchor(space + "&" + name)
    ensures Free(core + (space + "&" + name), comment, '#') && Free(core, space + "&" + name, '&')
  {
    var anchor := space + "&" + name;
    assert anchor == space + ("&" + name);
    LeadingSpacesAre(space, "&" + name);
    hide LeadingSpaces;
    assert (core + anchor)[|core + anchor| - 1] == name[|name| - 1];
  }

  /** Without comment and anchor, a name and spaces stay. */
  lemma {:induction false} TailIsCut(core: string, t: Tail)
    requires PlainCore(core) && t.Valid()
    ensures CutAnchor(CutComment(core + t.Text())) == core + if t.Spaces? then t.space else ""
  {
    hide CutComment, CutAnchor, Comment, LeadingSpaces, AtAnchor;
    match t
    case Spaces(s) =>
      CutBoth(core + s, "", "");
      assert core + s + "" + "" == core + s;
    case Remark(s, c) =>
      CommentIs(s, c);
      assert core + "" == core;
      CutBoth(core, "", s + c);
      assert core + "" + (s + c) == core + (s + c);
    case Anchor(s, n) =>
      AnchorStarts(core, s, n, "");
      hide Free;
      CutBoth(core, s + "&" + n, "");
      assert core + (s + "&" + n) + "" == core + (s + "&" + n);
      assert core + "" == core;
    case AnchorRemark(s, n, g, c) =>
      AnchorStarts(core, s, n, g + c);
      hide Free;
      CommentIs(g, c);
      CutBoth(core, s + "&" + n, g + c);
      assert core + (s + "&" + n) + (g + c) == core + (s + "&" + n + g + c);
      assert core + "" == core;
  }

  lemma {:induction false} UnquotesTo(n: WrittenName)
    requires n.Valid()
    ensures Unquote(n.Text()) == n.Name()
  {
    if n.InQuotes? {
      assert n.Text()[1..|n.Text()| - 1] == n.inner;
    }
  }

  /** A name is read without quotes, anchor and comment. */
  lemma {:induction false} NameReads(h: string, dash: string, blanks: string, n: WrittenName, t: Tail)
    requires IsHead(h, dash, blanks) && n.Valid() && t.Valid()
    ensures NameValue(h + (n.Text() + t.Text())) == Some(n.Name())
  {
    var core, rest := n.Text(), n.Text() + t.Text();
    ValidForm(n);
    CoreEnds(core);
    assert rest[0] == core[0];
    HeadIs(h, dash, blanks, rest);
    BlanksAreSpaces(h, dash, blanks);
    LstripIs(blanks, rest);
    TailIsCut(core, t);
    UnquotesTo(n);
    TailIsStripped(core, t);
    NameValueForm(h + rest, |dash| + 5);
    hide *;
  }

  lemma {:induction false} ValidForm(n: WrittenName)
    requires n.Valid()
    ensures PlainCore(n.Text())
  {
  }

  lemma {:induction false} LstripIs(blanks: string, rest: string)
    requires AllSpaces(blanks) && (rest != "" ==> !Space(rest[0]))
    ensures Lstrip(blanks + rest) == rest
  {
    LeadingSpacesAre(blanks, rest);
  }

  lemma {:induction false} TailIsStripped(core: string, t: Tail)
    requires PlainCore(core) && t.Valid()
    ensures Strip(core + if t.Spaces? then t.space else "") == core
  {
    var space := if t.Spaces? then t.space else "";
    StripIs("", core, space);
    hide Strip;
    assert "" + core + space == core + space;
  }

  lemma {:induction false} NameValueForm(s: string, k: nat)
    requires HeaderLength(s) == Some(k)
    ensures k <= |s| && NameValue(s) == Some(Unquote(Strip(CutAnchor(CutComment(Lstrip(s[k..]))))))
  {
    hide HeaderLength, Unquote, Strip, CutAnchor, CutComment, Lstrip;
  }

  lemma {:induction false} BlanksAreSpaces(h: string, dash: string, blanks: string)
    requires IsHead(h, dash, blanks)
    ensures AllSpaces(blanks)
  {
  }

  // ---------------------------------------------------------------- the flag

  const FLAG := "PYTEST_DISABLE_PLUGIN_AUTOLOAD"

  /** A line holds the flag if its name stands anywhere on it. */
  lemma {:induction false} FlagOnLine(s: string)
    ensures HasText(s, ENV_FLAG) <==> exists a: string, b: string :: s == a + FLAG + b
  {
    hide FLAG;
    assert ENV_FLAG == FLAG by { FlagIs(); }
    if HasText(s, FLAG) {
      var i: nat :| i <= |s| && FLAG <= s[i..];
      assert s == s[..i] + FLAG + s[i..][|FLAG|..];
    }
    if a: string, b: string :| s == a + FLAG + b {
      assert s[|a|..] == FLAG + b;
    }
  }

  lemma {:induction false} FlagIs()
    ensures ENV_FLAG == FLAG
  {
  }

  /** A step without an env key gets one, at the place of the run key or else at the end. */
  lemma {:induction false} EnvIsAdded(u: seq<Line>, step: nat, hint: Option<nat>)
    requires (forall k | 0 <= k < |u| :: !u[k].shape.Env()) && (hint.Some? ==> hint.value <= |u|)
    ensures var p := if hint.Some? then hint.value else |u|;
            WithEnv(u, step, hint)
            == u[..p] + [Read(step + 2, "env:"), Read(step + 4, FLAG + ": '1'")] + u[p..]
  {
    FirstEnvIs(u, 0, |u|);
    EnvLinesAre(step + 2, step + 4);
    hide FirstEnv, Read, EnvLine, EnvFlagLine;
  }

  lemma {:induction false} EnvLinesAre(n: nat, m: nat)
    ensures EnvLine(n) == Read(n, "env:") && EnvFlagLine(m) == Read(m, FLAG + ": '1'")
  {
    hide KindOf, RunsPytest;
  }

  lemma {:induction false} FirstEnvIs(u: seq<Line>, i: nat, e: nat)
    requires i <= e <= |u| && (forall k | i <= k < e :: !u[k].shape.Env()) && (e < |u| ==> u[e].shape.Env())
    ensures FirstEnv(u, i) == e
    decreases e - i
  {
    if i < e {
      FirstEnvIs(u, i + 1, e);
    }
  }

  /** Lines of an env mapping, without the flag. */
  predicate PlainVariables(u: seq<Line>, e: nat, k: nat)
    requires e < k <= |u|
  {
    forall y | e < y < k :: u[y].shape.Blank() || (u[e].Indent() < u[y].Indent() && !HasText(u[y].text, ENV_FLAG))
  }

  lemma {:induction false} SpotIs(u: seq<Line>, e: nat, i: nat, k: nat)
    requires e < i <= k <= |u| && PlainVariables(u, e, k)
    requires k < |u| ==>
               !u[k].shape.Blank() && (u[k].Indent() <= u[e].Indent() || HasText(u[k].text, ENV_FLAG))
    ensures FlagSpot(u, i, u[e].Indent()) == k
    decreases k - i
  {
    hide HasText;
    if i < k {
      SpotIs(u, e, i + 1, k);
    }
  }

  lemma {:induction false} WithEnvForm(u: seq<Line>, step: nat, hint: Option<nat>, e: nat, k: nat)
    requires e < |u| && FirstEnv(u, 0) == e && FlagSpot(u, e + 1, u[e].Indent()) == k
    ensures k <= |u|
    ensures WithEnv(u, step, hint)
         == if SetsFlag(u, k, u[e].Indent()) then u else InsertLines(u, k, [EnvFlagLine(u[e].Indent() + 2)])
  {
    hide FirstEnv, FlagSpot, EnvLine, EnvFlagLine, SetsFlag, InsertLines;
  }

  lemma {:induction false} SetsFlagForm(u: seq<Line>, k: nat, n: nat)
    ensures SetsFlag(u, k, n) <==>
            k < |u| && !u[k].shape.Blank() && n < u[k].Indent() && HasText(u[k].text, ENV_FLAG)
  {
    hide HasText, ENV_FLAG;
  }

  lemma {:induction false} InsertForm(u: seq<Line>, p: nat, ls: seq<Line>)
    requires p <= |u|
    ensures InsertLines(u, p, ls) == u[..p] + ls + u[p..]
  {
  }

  /** To an env mapping without the flag it is added at the end, two columns deeper than the key; only the first env key
      of the step counts. */
  lemma {:induction false} FlagIsAdded(u: seq<Line>, step: nat, hint: Option<nat>, e: nat, k: nat)
    requires e < k <= |u| && (forall y | 0 <= y < e :: !u[y].shape.Env()) && u[e].shape.Env() && PlainVariables(u, e, k)
    requires k < |u| ==> !u[k].shape.Blank() && u[k].Indent() <= u[e].Indent()
    ensures WithEnv(u, step, hint) == u[..k] + [Read(u[e].Indent() + 2, FLAG + ": '1'")] + u[k..]
  {
    FirstEnvIs(u, 0, e);
    SpotIs(u, e, e + 1, k);
    EnvLinesAre(0, u[e].Indent() + 2);
    SetsFlagForm(u, k, u[e].Indent());
    hide *;
    WithEnvForm(u, step, hint, e, k);
    InsertForm(u, k, [EnvFlagLine(u[e].Indent() + 2)]);
  }

  /** A mapping that holds the flag, whatever its value, stays as it is. */
  lemma {:induction false} FlagIsKept(u: seq<Line>, step: nat, hint: Option<nat>, e: nat, k: nat)
    requires e < k < |u| && (forall y | 0 <= y < e :: !u[y].shape.Env()) && u[e].shape.Env() && PlainVariables(u, e, k)
    requires !u[k].shape.Blank() && u[e].Indent() < u[k].Indent() && HasText(u[k].text, ENV_FLAG)
    ensures WithEnv(u, step, hint) == u
  {
    FirstEnvIs(u, 0, e);
    SpotIs(u, e, e + 1, k);
    SetsFlagForm(u, k, u[e].Indent());
    WithEnvForm(u, step, hint, e, k);
    hide *;
  }

  // ---------------------------------------------------------------- the support steps

  /** The support steps as they are written at depth `n`. */
  lemma {:induction false} BlocksAre(n: nat)
    ensures InstallBlock(n)
         == [Read(n, "- name: " + "Install dependencies (with extras)"), Read(n + 2, "run: |"),
             Read(n + 4, UPGRADE_PIP), Read(n + 4, INSTALL_EXTRAS), Read(n + 4, INSTALL_TESTING),
             Read(n + 4, INSTALL_SUPPORT)]
    ensures SelectBlock(n)
         == [Read(n, "- name: " + "Select mode env"), Read(n + 2, "run: |"), Read(n + 4, SELECT_IF),
             Read(n + 6, SELECT_STUB), Read(n + 4, SELECT_ELSE), Read(n + 6, SELECT_REDIS), Read(n + 4, SELECT_FI)]
    ensures InstallRun(n)
         == [Read(n, "run: |"), Read(n + 2, UPGRADE_PIP), Read(n + 2, INSTALL_EXTRAS), Read(n + 2, INSTALL_TESTING),
             Read(n + 2, INSTALL_SUPPORT)]
  {
    HeadersAre(n);
    hide Read, NameLine, RunHeader, UPGRADE_PIP, INSTALL_EXTRAS, INSTALL_TESTING, INSTALL_SUPPORT, SELECT_IF,
      SELECT_STUB, SELECT_ELSE, SELECT_REDIS, SELECT_FI;
  }

  lemma {:induction false} HeadersAre(n: nat)
    ensures NameLine(n, INSTALL_STEP_NAME) == Read(n, "- name: " + "Install dependencies (with extras)")
    ensures NameLine(n, SELECT_STEP_NAME) == Read(n, "- name: " + "Select mode env")
    ensures RunHeader(n) == Read(n, "run: |")
  {
    hide KindOf, RunsPytest;
  }

  /** Exactly the support steps without a step of their name are lacking; the install step comes first. */
  lemma {:induction false} LackingAre(names: set<string>, n: nat)
    ensures var install, select := "Install dependencies (with extras)" in names, "Select mode env" in names;
            MissingSteps(names, n) == (if install && select then [] else if install then SelectBlock(n)
                                       else if select then InstallBlock(n) else InstallBlock(n) + SelectBlock(n))
  {
    hide InstallBlock, SelectBlock;
  }

  // ---------------------------------------------------------------- steps, jobs and names in a text

  /** A step goes on over blank lines, deeper ones, and those as deep that start with no dash. */
  lemma {:induction false} StepExtends(lines: seq<Line>, i: nat, e: nat)
    requires i < e <= |lines| && lines[i].shape.kind == Kind.Dash
    requires forall k | i < k < e ::
               lines[k].shape.kind == Kind.Blank || lines[i].Indent() < lines[k].Indent()
               || (lines[k].Indent() == lines[i].Indent() && lines[k].shape.kind != Kind.Dash)
    requires e < |lines| ==>
               && lines[e].shape.kind != Kind.Blank && lines[e].Indent() <= lines[i].Indent()
               && (lines[e].Indent() == lines[i].Indent() ==> lines[e].shape.kind == Kind.Dash)
    ensures StepAt(lines, i) == Some(Step(i, e, lines[i].Indent(), lines[i..e]))
  {
    StepEndIs(lines, i + 1, lines[i].Indent(), e);
    hide StepEnd;
  }

  lemma {:induction false} StepEndIs(lines: seq<Line>, i: nat, n: nat, e: nat)
    requires i <= e <= |lines| && (forall k | i <= k < e :: !lines[k].shape.Ends(n))
    requires e < |lines| ==> lines[e].shape.Ends(n)
    ensures StepEnd(lines, i, n) == e
    decreases e - i
  {
    if i < e {
      StepEndIs(lines, i + 1, n, e);
    }
  }

  /** The body of a run key reaches up to the next run key, or the next line that is no deeper: the key is hot if one of
      these lines, or the key itself, runs pytest. */
  lemma {:induction false} HotExactly(t: Text, r: nat, e: nat)
    requires r < e <= |t| && t[r].kind == RunKey
    requires forall k | r < k < e :: t[k].kind != RunKey && t[r].indent < t[k].indent
    requires e < |t| ==> t[e].kind == RunKey || t[e].indent <= t[r].indent
    ensures Hot(t, r) <==> exists k | r <= k < e :: t[k].pytest
  {
    if x: nat :| InBody(t, r, x) && t[x].pytest {
      assert x < e;
    }
    if k :| r <= k < e && t[k].pytest {
      assert InBody(t, r, k);
    }
  }

  /** A line is the key of a job if it is less deep than the steps key, ends with a colon, and starts with no dash. */
  lemma {:induction false} JobKeyExactly(l: Line, n: nat)
    ensures JobKey(l, n) <==>
            l.Indent() < n && (exists name: string :: l.text == name + ":") && l.shape.kind != Kind.Dash
  {
    EndsExactly(l.text, ":");
  }

  /** The job of a line has the nearest steps key at or above the line, and above that the nearest job key; it goes on
      over blank lines and those deeper than its key. */
  lemma {:induction false} JobSpans(lines: seq<Line>, index: nat, steps: nat, job: nat, end: nat)
    requires job < steps <= index < |lines| && job < end <= |lines| && lines[steps].shape.kind == StepsKey
    requires forall k | steps < k <= index :: lines[k].shape.kind != StepsKey
    requires JobKey(lines[job], lines[steps].Indent())
    requires forall k | job < k < steps :: !JobKey(lines[k], lines[steps].Indent())
    requires forall k | job < k < end ::
               lines[k].shape.kind == Kind.Blank || lines[job].Indent() < lines[k].Indent()
    requires end < |lines| ==> lines[end].shape.kind != Kind.Blank && lines[end].Indent() <= lines[job].Indent()
    ensures JobOf(lines, index) == Some((job, end))
  {
    hide JobKey, JobOf;
    assert JobBounds(lines, index, steps, job, end);
    JobIsUnique(lines, index, steps, job, end);
  }

  lemma {:induction false} NamedExactly(s: string)
    ensures Named(s) <==> exists rest: string :: s == "name:" + rest || s == "- name:" + rest
  {
    if "name:" <= s {
      assert s == "name:" + s[5..];
    }
    if "- name:" <= s {
      assert s == "- name:" + s[7..];
    }
  }

  /** The name of a step is that of its first name line. */
  lemma {:induction false} FirstNameCounts(b: seq<Line>, k: nat)
    requires k <= |b| && (forall j | 0 <= j < k :: NameValue(b[j].text).None?)
    requires k < |b| ==> NameValue(b[k].text).Some?
    ensures StepName(b) == if k < |b| then NameValue(b[k].text) else None
  {
    hide NameValue;
    if k > 0 {
      FirstNameCounts(b[1..], k - 1);
    }
  }

  /** The scan of lines `i..end` meets the steps that start at `starts`: it moves from line to line until it meets a
      dash, and then behind the step. */
  ghost predicate MeetsSteps(lines: seq<Line>, i: nat, end: nat, starts: seq<nat>)
    decreases |starts|
  {
    if starts == [] then forall k | i <= k < end :: StepAt(lines, k).None?
    else
      && i <= starts[0] < end && (forall k | i <= k < starts[0] :: StepAt(lines, k).None?)
      && StepAt(lines, starts[0]).Some?
      && MeetsSteps(lines, StepAt(lines, starts[0]).value.end, end, starts[1..])
  }

  lemma {:induction false} MeetsNext(lines: seq<Line>, i: nat, end: nat, starts: seq<nat>)
    requires MeetsSteps(lines, i, end, starts)
    ensures end <= i ==> starts == []
    ensures i < end && StepAt(lines, i).None? ==> MeetsSteps(lines, i + 1, end, starts)
    ensures i < end && StepAt(lines, i).Some? ==>
              starts != [] && starts[0] == i && MeetsSteps(lines, StepAt(lines, i).value.end, end, starts[1..])
  {
    hide StepAt;
    if starts != [] {
      assert i < end;
    }
  }

  lemma {:induction false} StartsAreSteps(lines: seq<Line>, i: nat, end: nat, starts: seq<nat>)
    requires MeetsSteps(lines, i, end, starts)
    ensures forall k | 0 <= k < |starts| :: StepAt(lines, starts[k]).Some?
    decreases |starts|
  {
    hide StepAt;
    if starts != [] {
      StartsAreSteps(lines, StepAt(lines, starts[0]).value.end, end, starts[1..]);
      assert forall k | 0 < k < |starts| :: starts[k] == starts[1..][k - 1];
    }
  }

  /** The names collected are those of the steps met, apart from empty ones. */
  lemma {:induction false} NamesMet(lines: seq<Line>, i: nat, end: nat, starts: seq<nat>, name: string)
    requires MeetsSteps(lines, i, end, starts)
    ensures forall k | 0 <= k < |starts| :: StepAt(lines, starts[k]).Some?
    ensures name in NamesOfSteps(lines, i, end) <==>
            name != "" && exists k | 0 <= k < |starts| :: StepName(StepAt(lines, starts[k]).value.lines) == Some(name)
    decreases end - i
  {
    hide StepAt, StepName, MeetsSteps;
    StartsAreSteps(lines, i, end, starts);
    MeetsNext(lines, i, end, starts);
    if i < end {
      if StepAt(lines, i).None? {
        NamesMet(lines, i + 1, end, starts, name);
      } else {
        NamesMet(lines, StepAt(lines, i).value.end, end, starts[1..], name);
        assert forall k | 0 < k < |starts| :: starts[k] == starts[1..][k - 1];
      }
    }
  }

  /** The step found for a name is the first one met that has it. */
  lemma {:induction false} FirstNamedMet(lines: seq<Line>, i: nat, end: nat, starts: seq<nat>, target: string, k: nat)
    requires MeetsSteps(lines, i, end, starts) && k <= |starts|
    requires forall j | 0 <= j <= k && j < |starts| :: StepAt(lines, starts[j]).Some?
    requires forall j | 0 <= j < k :: NormalizedName(StepAt(lines, starts[j]).value.lines) != Some(target)
    requires k < |starts| ==> NormalizedName(StepAt(lines, starts[k]).value.lines) == Some(target)
    ensures StepNamed(lines, i, end, target) == if k < |starts| then StepAt(lines, starts[k]) else None
    decreases end - i
  {
    hide StepAt, NormalizedName, MeetsSteps;
    MeetsNext(lines, i, end, starts);
    if i < end {
      if StepAt(lines, i).None? {
        FirstNamedMet(lines, i + 1, end, starts, target, k);
      } else if k > 0 {
        assert forall j | 0 < j < |starts| :: starts[j] == starts[1..][j - 1];
        FirstNamedMet(lines, StepAt(lines, i).value.end, end, starts[1..], target, k - 1);
      }
    }
  }

  // ---------------------------------------------------------------- a step that is rewritten

  /** Lines that the rewriter copies one by one. */
  predicate Copied(ls: seq<Line>) {
    forall k | 0 <= k < |ls| :: !Named(ls[k].text) && ls[k].shape.kind != EnvKey && ls[k].shape.kind != RunKey
  }

  /** The numbers `i..j`. */
  function Sources(i: nat, j: nat): (r: seq<int>)
    requires i <= j
    ensures |r| == j - i && forall k | 0 <= k < |r| :: r[k] == i + k
  {
    seq(j - i, k => i + k)
  }

  lemma {:induction false} CopiesLines(b: seq<Line>, step: nat, i: nat, j: nat, d: Draft)
    requires i <= j <= |b| && Copied(b[i..j])
    ensures Rewrite(b, step, i, d)
         == Rewrite(b, step, j, Draft(d.lines + b[i..j], d.named, d.hint, d.src + Sources(i, j)))
    decreases j - i
  {
    hide Rewrite, Named, Read;
    if i == j {
      assert d.lines + b[i..j] == d.lines && d.src + Sources(i, j) == d.src;
    } else {
      var l, next := b[i], d.Keep(b[i], i, false);
      assert b[i..j][0] == l && b[i + 1..j] == b[i..j][1..];
      RewriteNext(b, step, i, d);
      assert Copied(b[i + 1..j]);
      CopiesLines(b, step, i + 1, j, next);
      assert next.lines + b[i + 1..j] == d.lines + b[i..j];
      assert next.src + Sources(i + 1, j) == d.src + Sources(i, j);
      hide Sources, Copied;
    }
  }

  lemma {:induction false} ExtentIs(b: seq<Line>, j: nat, indent: nat, e: nat)
    requires j <= e <= |b| && (forall k | j <= k < e :: Deeper(b[k], indent)) && (e < |b| ==> !Deeper(b[e], indent))
    ensures ExtentEnd(b, j, indent) == e
    decreases e - j
  {
    if j < e {
      ExtentIs(b, j + 1, indent, e);
    }
  }

  /** A step whose lines `r..e` are its only run key and what belongs to it, and which has a name and no variables. */
  ghost predicate PlainStep(b: seq<Line>, r: nat, e: nat) {
    && 0 < r < e <= |b| && AllRead(b[..1]) && Named(b[0].text) && Copied(b[1..r]) && Copied(b[e..])
    && b[r].shape.kind == RunKey && !Named(b[r].text)
    && (forall k | r < k < e :: b[k].shape.kind == Kind.Blank || b[r].Indent() < b[k].Indent())
    && (e < |b| ==> b[e].shape.kind != Kind.Blank && b[e].Indent() <= b[r].Indent())
  }

  lemma {:induction false} HeadDraft(b: seq<Line>, r: nat, e: nat, n: nat)
    requires PlainStep(b, r, e)
    ensures Rewrite(b, n, 0, BLANK)
         == Rewrite(b, n, r, Draft([Suffixed(b[0])] + b[1..r], true, None, [0] + Sources(1, r)))
  {
    hide Read, Named, Rewrite, Suffixed;
    RewriteNext(b, n, 0, BLANK);
    var d := BLANK.Keep(Suffixed(b[0]), 0, true);
    assert d == Draft([Suffixed(b[0])], true, None, [0]);
    CopiesLines(b, n, 1, r, d);
  }

  lemma {:induction false} RunDraft(b: seq<Line>, r: nat, e: nat, n: nat, d: Draft)
    requires PlainStep(b, r, e)
    ensures Rewrite(b, n, r, d) == Rewrite(b, n, e, d.Run(n))
  {
    hide Read, Named, Rewrite, Draft.Run;
    RewriteNext(b, n, r, d);
    ExtentIs(b, r + 1, b[r].Indent(), e);
    hide ExtentEnd;
  }

  lemma {:induction false} TailDraft(b: seq<Line>, r: nat, e: nat, n: nat, d: Draft)
    requires PlainStep(b, r, e)
    ensures var u := Rewrite(b, n, e, d); u.lines == d.lines + b[e..] && u.named == d.named && u.hint == d.hint
  {
    hide Read, Named, Rewrite;
    assert b[e..|b|] == b[e..];
    CopiesLines(b, n, e, |b|, d);
    RewriteNext(b, n, |b|, Draft(d.lines + b[e..|b|], d.named, d.hint, d.src + Sources(e, |b|)));
  }

  lemma {:induction false} PlainDraft(b: seq<Line>, r: nat, e: nat, n: nat)
    requires PlainStep(b, r, e)
    ensures var d := Rewrite(b, n, 0, BLANK);
            && d.lines == [Suffixed(b[0])] + b[1..r] + [RunHeader(n + 2), RunnerLine(n + 4)] + b[e..]
            && d.named && d.hint == Some(r)
  {
    HeadDraft(b, r, e, n);
    var d := Draft([Suffixed(b[0])] + b[1..r], true, None, [0] + Sources(1, r));
    RunDraft(b, r, e, n, d);
    TailDraft(b, r, e, n, d.Run(n));
    hide Suffixed, Rewrite, RunHeader, RunnerLine, PlainStep;
  }

  lemma {:induction false} NoVariables(b: seq<Line>, r: nat, e: nat, n: nat)
    requires PlainStep(b, r, e)
    ensures var u := [Suffixed(b[0])] + b[1..r] + [RunHeader(n + 2), RunnerLine(n + 4)] + b[e..];
            forall k | 0 <= k < |u| :: !u[k].shape.Env()
  {
    hide Named, Suffixed, RunHeader, RunnerLine;
    assert b[..1][0] == b[0];
    SuffixedKeepsShape(b[0]);
    assert forall k | 0 <= k < |b[1..r]| :: !b[1..r][k].shape.Env();
    assert forall k | 0 <= k < |b[e..]| :: !b[e..][k].shape.Env();
  }

  /** Of a step with a name and one run key, and without variables, the name is marked, the script replaced by the
      runner, and the flag set in front of that; everything else stays. */
  lemma {:induction false} PlainStepIsRewritten(b: seq<Line>, r: nat, e: nat, n: nat)
    requires PlainStep(b, r, e)
    ensures RewriteLines(b, n)
         == [Read(b[0].Indent(), AppendSuffix(b[0].text))] + b[1..r]
            + [Read(n + 2, "env:"), Read(n + 4, FLAG + ": '1'"), Read(n + 2, "run: |"), Read(n + 4, RUNNER_COMMAND)]
            + b[e..]
  {
    var head, run := [Suffixed(b[0])] + b[1..r], [RunHeader(n + 2), RunnerLine(n + 4)];
    var env := [Read(n + 2, "env:"), Read(n + 4, FLAG + ": '1'")];
    PlainDraft(b, r, e, n);
    NoVariables(b, r, e, n);
    RewriteLinesForm(b, n);
    EnvIsAdded(head + run + b[e..], n, Some(r));
    RunLinesAre(n);
    SuffixedForm(b[0]);
    hide *;
    Inserted(head, run, b[e..], env);
    assert env + run == [Read(n + 2, "env:"), Read(n + 4, FLAG + ": '1'"), Read(n + 2, "run: |"),
                         Read(n + 4, RUNNER_COMMAND)];
  }

  /** A step without a name line gets a name line of its own in front. */
  lemma {:induction false} RewriteLinesForm(b: seq<Line>, n: nat)
    ensures var d := Rewrite(b, n, 0, BLANK);
            RewriteLines(b, n)
            == WithEnv(if d.named then d.lines
                       else [Read(n, "- name: " + ("Run pytest suite" + " (via CI runner)"))] + d.lines, n, d.hint)
  {
    hide Rewrite, WithEnv, KindOf, RunsPytest;
  }

  lemma {:induction false} SuffixedForm(l: Line)
    ensures Suffixed(l) == Read(l.Indent(), AppendSuffix(l.text))
  {
    hide Read, AppendSuffix;
  }

  lemma {:induction false} Inserted(a: seq<Line>, b: seq<Line>, c: seq<Line>, ls: seq<Line>)
    ensures (a + b + c)[..|a|] + ls + (a + b + c)[|a|..] == a + (ls + b) + c
  {
  }

  lemma {:induction false} RunLinesAre(n: nat)
    ensures RunHeader(n + 2) == Read(n + 2, "run: |") && RunnerLine(n + 4) == Read(n + 4, RUNNER_COMMAND)
  {
    hide KindOf, RunsPytest, RUNNER_COMMAND;
  }
}
