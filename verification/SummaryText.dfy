/** The pytest summary line: its writers, and the three readers that take it apart again. */
module SummaryText {
  import opened Decimals
  import opened PyStrings

  // ---------------------------------------------------------------- counts and fields

  datatype Label = Passed | Failed | Skipped | Xfailed | Xpassed | Errors | Warnings | Deselected | Rerun

  type Tallies = map<Label, nat>

  function LowerAll(s: string): (r: string)
    ensures |r| == |s| && forall k | 0 <= k < |s| :: r[k] == Lower(s[k])
  {
    seq(|s|, k requires 0 <= k < |s| => Lower(s[k]))
  }

  predicate IsLetter(c: char) { 'a' <= c <= 'z' || 'A' <= c <= 'Z' }

  function Word(l: Label): (w: string)
    ensures w != ""
  {
    match l
    case Passed => "passed"
    case Failed => "failed"
    case Skipped => "skipped"
    case Xfailed => "xfailed"
    case Xpassed => "xpassed"
    case Errors => "errors"
    case Warnings => "warnings"
    case Deselected => "deselected"
    case Rerun => "rerun"
  }

  lemma {:induction false} WordsAreLower(l: Label)
    ensures forall k | 0 <= k < |Word(l)| :: 'a' <= Word(l)[k] <= 'z'
  {
  }

  function Field(n: nat, l: Label): string { Decimal(n) + " " + Word(l) }

  function JoinWith(parts: seq<string>, sep: string): string
    requires parts != []
  {
    if |parts| == 1 then parts[0] else parts[0] + sep + JoinWith(parts[1..], sep)
  }

  /** A count with its label. */
  datatype Entry = Entry(count: nat, what: Label)

  function Fields(es: seq<Entry>): (fs: seq<string>)
    ensures |fs| == |es| && forall k | 0 <= k < |es| :: fs[k] == Field(es[k].count, es[k].what)
  {
    seq(|es|, k requires 0 <= k < |es| => Field(es[k].count, es[k].what))
  }

  // ---------------------------------------------------------------- writers

  datatype Counts = Counts(passed: nat, failed: nat, skipped: nat, xfailed: nat, xpassed: nat, errors: nat,
      warnings: nat)

  function Entries(c: Counts): seq<Entry> {
    [Entry(c.passed, Passed), Entry(c.failed, Failed), Entry(c.skipped, Skipped), Entry(c.xfailed, Xfailed),
     Entry(c.xpassed, Xpassed), Entry(c.errors, Errors), Entry(c.warnings, Warnings)]
  }

  /** The line the orchestrator writes to the summary file. */
  function SummaryLine(c: Counts): string { "= " + JoinWith(Fields(Entries(c)), ", ") + " =" }

  function CanonicalEntries(c: Counts): seq<Entry> {
    [Entry(c.passed, Passed), Entry(c.failed, Failed), Entry(c.xfailed, Xfailed), Entry(c.skipped, Skipped),
        Entry(c.warnings, Warnings)]
  }

  /** The canonical line of the gate, which has five of the counts. */
  function CanonicalLine(c: Counts): string { "= " + JoinWith(Fields(CanonicalEntries(c)), ", ") }

  // ---------------------------------------------------------------- finding the summary

  /** The last stretch between two equals signs, where each sign serves one match; the parts are those between the
      signs. */
  function LastBetween(parts: seq<string>): Option<string> {
    if |parts| < 3 then None
    else if parts[1] == "" then LastBetween(parts[1..])
    else
      var later := LastBetween(parts[2..]);
      if later.Some? then later else Some(parts[1])
  }

  /** The first stretch between equals signs that starts and ends with a blank, without these. */
  function FirstSpaced(parts: seq<string>): Option<string> {
    if |parts| < 3 then None
    else
      var p := parts[1];
      if |p| >= 3 && Space(p[0]) && Space(p[|p| - 1]) then Some(p[1..|p| - 1]) else FirstSpaced(parts[1..])
  }

  // ---------------------------------------------------------------- reading a token

  /** Digits, blanks, and then the rest. */
  function SplitToken(token: string): Option<(nat, string)> {
    var d := Prefix(token, IsDigit);
    var s := Prefix(token[d..], Space);
    if d == 0 || s == 0 then None else Some((DecimalValue(token[..d]), token[d..][s..]))
  }

  function StrictLabel(word: string): Option<Label> {
    if word == "pass" || word == "passed" || word == "passes" then Some(Passed)
    else if word == "fail" || word == "failed" || word == "failures" then Some(Failed)
    else if word == "skip" || word == "skipped" || word == "skips" then Some(Skipped)
    else if word == "xfailed" then Some(Xfailed)
    else if word == "xpass" || word == "xpassed" then Some(Xpassed)
    else if word == "error" || word == "errors" then Some(Errors)
    else if word == "warning" || word == "warnings" then Some(Warnings)
    else None
  }

  /** How the strict report reads a token: a number and a known word; anything else is an error. */
  function StrictToken(token: string): Option<Entry> {
    match SplitToken(token)
    case None => None
    case Some((n, rest)) =>
      match StrictLabel(LowerAll(rest[..Prefix(rest, IsLetter)]))
      case None => None
      case Some(l) => Some(Entry(n, l))
  }

  predicate StartsWithWord(s: string, w: string) { |w| <= |s| && LowerAll(s[..|w|]) == w }

  /** How the score reporter reads a token: a number and one of the words it knows at the start of the rest. */
  function LenientToken(token: string): Option<Entry> {
    match SplitToken(token)
    case None => None
    case Some((n, rest)) =>
      if StartsWithWord(rest, "passed") then Some(Entry(n, Passed))
      else if StartsWithWord(rest, "failed") then Some(Entry(n, Failed))
      else if StartsWithWord(rest, "skipped") then Some(Entry(n, Skipped))
      else if StartsWithWord(rest, "xfailed") then Some(Entry(n, Xfailed))
      else if StartsWithWord(rest, "xpassed") then Some(Entry(n, Xpassed))
      else if StartsWithWord(rest, "warning") then Some(Entry(n, Warnings))
      else None
  }

  function GateLabel(word: string): Option<Label> {
    if word == "passed" || word == "pass" then Some(Passed)
    else if word == "failed" || word == "failures" || word == "errors" || word == "error" then Some(Failed)
    else if word == "skipped" then Some(Skipped)
    else if word == "deselected" then Some(Deselected)
    else if word == "xfailed" then Some(Xfailed)
    else if word == "xpassed" then Some(Xpassed)
    else if word == "warnings" || word == "warning" then Some(Warnings)
    else if word == "rerun" then Some(Rerun)
    else None
  }

  predicate NotSpace(c: char) { !Space(c) }

  /** How the gate reads a token that has two words: the first a number, the second a known label. */
  function GateToken(token: string): Option<Entry> {
    var a := Prefix(token, NotSpace);
    var rest := Lstrip(token[a..]);
    var number, word := token[..a], rest[..Prefix(rest, NotSpace)];
    if !AllDigits(number) || number == "" then None
    else
      match GateLabel(LowerAll(word))
      case None => None
      case Some(l) => Some(Entry(DecimalValue(number), l))
  }

  /** A token with fewer than two words, which the gate skips. */
  predicate OneWord(token: string) { Lstrip(token[Prefix(token, NotSpace)..]) == "" }

  // ---------------------------------------------------------------- tallying

  function Tallied(t: Tallies, es: seq<Entry>): Tallies {
    if es == [] then t else Tallied(t, es[..|es| - 1])[es[|es| - 1].what := es[|es| - 1].count]
  }

  const NO_TALLIES: Tallies := map[Passed := 0, Failed := 0, Skipped := 0, Xfailed := 0, Xpassed := 0, Errors := 0,
                                   Warnings := 0, Deselected := 0, Rerun := 0]

  /** The entries of the parts that are not blank, or nothing if one of them is not understood. */
  function StrictEntries(parts: seq<string>): Option<seq<Entry>> {
    if parts == [] then Some([])
    else
      var init, token := StrictEntries(parts[..|parts| - 1]), Strip(parts[|parts| - 1]);
      if init.None? || token == "" then init
      else if StrictToken(token).None? then None
      else Some(init.value + [StrictToken(token).value])
  }

  /** The stretch of text that the strict report reads, cut at commas. */
  function StrictParts(text: string): seq<string> {
    var segment := LastBetween(Split(text, '='));
    Split(if segment.Some? then segment.value else text, ',')
  }

  function StrictCounts(text: string): Option<Tallies> {
    var es := StrictEntries(StrictParts(text));
    if es.None? then None else Some(Tallied(NO_TALLIES, es.value))
  }

  method ParseSummaryCounts(text: string) returns (r: Option<Tallies>)
    ensures r == StrictCounts(text)
  {
    hide StrictToken, Strip, Split, LastBetween;
    var segment := LastBetween(Split(text, '='));
    var parts := Split(if segment.Some? then segment.value else text, ',');
    var tallies := NO_TALLIES;
    ghost var es: seq<Entry> := [];
    for i := 0 to |parts|
      invariant StrictEntries(parts[..i]) == Some(es) && tallies == Tallied(NO_TALLIES, es)
    {
      assert parts[..i + 1][..i] == parts[..i];
      var token := Strip(parts[i]);
      if token != "" {
        var entry := StrictToken(token);
        if entry.None? {
          StrictFails(parts, i + 1);
          return None;
        }
        tallies := tallies[entry.value.what := entry.value.count];
        es := es + [entry.value];
      }
    }
    assert parts[..|parts|] == parts;
    return Some(tallies);
  }

  lemma {:induction false} StrictFails(parts: seq<string>, n: nat)
    requires n <= |parts| && StrictEntries(parts[..n]).None?
    ensures StrictEntries(parts).None?
    decreases |parts|
  {
    if n < |parts| {
      assert parts[..|parts| - 1][..n] == parts[..n];
      StrictFails(parts[..|parts| - 1], n);
    } else {
      assert parts[..n] == parts;
    }
  }

  /** The entries of the parts that are understood. */
  function LenientEntries(parts: seq<string>): seq<Entry> {
    if parts == [] then []
    else
      var init, entry := LenientEntries(parts[..|parts| - 1]), LenientToken(Strip(parts[|parts| - 1]));
      if entry.None? then init else init + [entry.value]
  }

  /** What the score reporter finds in a text, and whether it finds anything. */
  function LenientCounts(text: string): (Tallies, bool) {
    var body := FirstSpaced(Split(text, '='));
    var es := if body.None? then [] else LenientEntries(Split(body.value, ','));
    (Tallied(NO_TALLIES, es), es != [])
  }

  method ParseSummaryExtended(text: string) returns (tallies: Tallies, found: bool)
    ensures (tallies, found) == LenientCounts(text)
  {
    hide LenientToken, Strip, Split, FirstSpaced;
    tallies, found := NO_TALLIES, false;
    var body := FirstSpaced(Split(text, '='));
    if body.None? {
      return;
    }
    var parts := Split(body.value, ',');
    ghost var es: seq<Entry> := [];
    for i := 0 to |parts|
      invariant LenientEntries(parts[..i]) == es && tallies == Tallied(NO_TALLIES, es) && found == (es != [])
    {
      assert parts[..i + 1][..i] == parts[..i];
      var entry := LenientToken(Strip(parts[i]));
      if entry.Some? {
        tallies := tallies[entry.value.what := entry.value.count];
        es := es + [entry.value];
        found := true;
      }
    }
    assert parts[..|parts|] == parts;
  }

  /** The entries of the parts with at least two words, or nothing if one of them is not understood. */
  function GateEntries(parts: seq<string>): Option<seq<Entry>> {
    if parts == [] then Some([])
    else
      var init, token := GateEntries(parts[..|parts| - 1]), Strip(parts[|parts| - 1]);
      if init.None? || token == "" || OneWord(token) then init
      else if GateToken(token).None? then None
      else Some(init.value + [GateToken(token).value])
  }

  predicate Mentions(es: seq<Entry>, l: Label) { exists k | 0 <= k < |es| :: es[k].what == l }

  /** What the gate makes of a summary: it insists on a count of passed tests. */
  function GateCounts(body: string): Option<Tallies> {
    var es := GateEntries(Split(body, ','));
    if es.None? || !Mentions(es.value, Passed) then None else Some(Tallied(NO_TALLIES, es.value))
  }

  method ParseSummaryBody(body: string) returns (r: Option<Tallies>)
    ensures r == GateCounts(body)
  {
    hide GateToken, OneWord, Strip, Split;
    var parts := Split(body, ',');
    var tallies := NO_TALLIES;
    var seen: set<Label> := {};
    ghost var es: seq<Entry> := [];
    for i := 0 to |parts|
      invariant GateEntries(parts[..i]) == Some(es) && tallies == Tallied(NO_TALLIES, es)
      invariant forall l :: l in seen <==> Mentions(es, l)
    {
      assert parts[..i + 1][..i] == parts[..i];
      var token := Strip(parts[i]);
      if token != "" && !OneWord(token) {
        var entry := GateToken(token);
        if entry.None? {
          GateFails(parts, i + 1);
          return None;
        }
        tallies := tallies[entry.value.what := entry.value.count];
        seen := seen + {entry.value.what};
        MentionsNext(es, entry.value);
        es := es + [entry.value];
      }
    }
    assert parts[..|parts|] == parts;
    return if Passed in seen then Some(tallies) else None;
  }

  lemma {:induction false} MentionsNext(es: seq<Entry>, e: Entry)
    ensures forall l :: Mentions(es + [e], l) <==> Mentions(es, l) || e.what == l
  {
    forall l
      ensures Mentions(es + [e], l) <==> Mentions(es, l) || e.what == l
    {
      if Mentions(es, l) {
        var k :| 0 <= k < |es| && es[k].what == l;
        assert (es + [e])[k].what == l;
      }
      assert (es + [e])[|es|].what == e.what;
    }
  }

  lemma {:induction false} GateFails(parts: seq<string>, n: nat)
    requires n <= |parts| && GateEntries(parts[..n]).None?
    ensures GateEntries(parts).None?
    decreases |parts|
  {
    if n < |parts| {
      assert parts[..|parts| - 1][..n] == parts[..n];
      GateFails(parts[..|parts| - 1], n);
    } else {
      assert parts[..n] == parts;
    }
  }

  // ---------------------------------------------------------------- round trips

  lemma {:induction false} FieldParts(n: nat, l: Label)
    ensures SplitToken(Field(n, l)) == Some((n, Word(l)))
    ensures Field(n, l)[0] == Decimal(n)[0] && Field(n, l)[|Field(n, l)| - 1] == Word(l)[|Word(l)| - 1]
  {
    WordsAreLower(l);
    ValueOfDecimal(n);
    hide Word;
    var f := Field(n, l);
    assert f == Decimal(n) + (" " + Word(l));
    PrefixIs(Decimal(n), " " + Word(l), IsDigit);
    assert f[|Decimal(n)|..] == " " + Word(l);
    PrefixIs(" ", Word(l), Space);
    assert (" " + Word(l))[1..] == Word(l);
  }

  lemma {:induction false} LettersOfWord(l: Label)
    ensures Word(l)[..Prefix(Word(l), IsLetter)] == Word(l) && LowerAll(Word(l)) == Word(l)
  {
    WordsAreLower(l);
    hide Word;
    PrefixIs(Word(l), "", IsLetter);
    assert Word(l) + "" == Word(l);
  }

  lemma {:induction false} StrictReadsField(n: nat, l: Label)
    requires l != Deselected && l != Rerun
    ensures StrictToken(Field(n, l)) == Some(Entry(n, l))
  {
    hide Word, Field, SplitToken, StrictLabel, Prefix, LowerAll;
    FieldParts(n, l);
    LettersOfWord(l);
    LabelsOfWord(l);
  }

  lemma {:induction false} LabelsOfWord(l: Label)
    ensures l != Deselected && l != Rerun ==> StrictLabel(Word(l)) == Some(l)
    ensures l != Errors ==> GateLabel(Word(l)) == Some(l)
  {
    FirstLetters(l);
    FirstLetters(Passed);
  }

  lemma {:induction false} FirstLetters(l: Label)
    ensures match l
            case Passed => |Word(l)| == 6 && Word(l)[0] == 'p'
            case Failed => |Word(l)| == 6 && Word(l)[0] == 'f'
            case Skipped => |Word(l)| == 7 && Word(l)[0] == 's'
            case Xfailed => |Word(l)| == 7 && Word(l)[0] == 'x' && Word(l)[1] == 'f'
            case Xpassed => |Word(l)| == 7 && Word(l)[0] == 'x' && Word(l)[1] == 'p'
            case Errors => |Word(l)| == 6 && Word(l)[0] == 'e'
            case Warnings => |Word(l)| == 8 && Word(l)[0] == 'w'
            case Deselected => |Word(l)| == 10 && Word(l)[0] == 'd'
            case Rerun => |Word(l)| == 5 && Word(l)[0] == 'r'
  {
  }

  lemma {:induction false} PrefixWord(w: string, l: Label)
    ensures StartsWithWord(Word(l), w) <==> |w| <= |Word(l)| && Word(l)[..|w|] == w
  {
    WordsAreLower(l);
    hide Word;
    if |w| <= |Word(l)| {
      assert LowerAll(Word(l)[..|w|]) == Word(l)[..|w|];
    }
  }

  lemma {:induction false} LenientReadsField(n: nat, l: Label)
    requires l != Deselected && l != Rerun
    ensures LenientToken(Field(n, l)) == if l == Errors then None else Some(Entry(n, l))
  {
    FieldParts(n, l);
    PrefixWord("passed", l);
    PrefixWord("failed", l);
    PrefixWord("skipped", l);
    PrefixWord("xfailed", l);
    PrefixWord("xpassed", l);
    PrefixWord("warning", l);
    hide Field, SplitToken, StartsWithWord;
    WordStarts(l);
  }

  lemma {:induction false} WordStarts(l: Label)
    requires l != Deselected && l != Rerun
    ensures |Word(l)| >= 6 && (Word(l)[..6] == "passed" <==> l == Passed) && (Word(l)[..6] == "failed" <==> l == Failed)
    ensures |Word(l)| >= 7 ==>
              (Word(l)[..7] == "skipped" <==> l == Skipped)
              && (Word(l)[..7] == "xfailed" <==> l == Xfailed)
    ensures |Word(l)| >= 7 ==>
              (Word(l)[..7] == "xpassed" <==> l == Xpassed)
              && (Word(l)[..7] == "warning" <==> l == Warnings)
    ensures l in {Skipped, Xfailed, Xpassed, Warnings} ==> |Word(l)| >= 7
  {
    FirstLetters(l);
    var w := Word(l);
    assert w[..6][0] == w[0];
    assert |w| >= 7 ==> w[..7][0] == w[0] && w[..7][1] == w[1];
    assert l == Passed ==> w[..6] == "passed";
    assert l == Failed ==> w[..6] == "failed";
    assert l == Skipped ==> w[..7] == "skipped";
    assert l == Xfailed ==> w[..7] == "xfailed";
    assert l == Xpassed ==> w[..7] == "xpassed";
    assert l == Warnings ==> w[..7] == "warning";
  }

  lemma {:induction false} GateReadsField(n: nat, l: Label)
    requires l != Errors
    ensures GateToken(Field(n, l)) == Some(Entry(n, l)) && !OneWord(Field(n, l))
  {
    hide Word, GateLabel, LowerAll;
    WordsAreLower(l);
    LettersOfWord(l);
    ValueOfDecimal(n);
    LabelsOfWord(l);
    var f := Field(n, l);
    assert f == Decimal(n) + (" " + Word(l));
    assert forall k | 0 <= k < |Decimal(n)| :: IsDigit(Decimal(n)[k]);
    PrefixIs(Decimal(n), " " + Word(l), NotSpace);
    assert f[|Decimal(n)|..] == " " + Word(l);
    LeadingSpacesAre(" ", Word(l));
    assert (" " + Word(l))[1..] == Word(l);
    PrefixIs(Word(l), "", NotSpace);
    assert Word(l) + "" == Word(l);
  }

  ghost predicate CleanField(f: string) {
    f != "" && !Space(f[0]) && !Space(f[|f| - 1]) && ',' !in f && '=' !in f
  }

  ghost predicate PlainText(s: string) { forall k | 0 <= k < |s| :: IsDigit(s[k]) || s[k] == ' ' || 'a' <= s[k] <= 'z' }

  lemma {:induction false} PlainSum(a: string, b: string)
    requires PlainText(a) && PlainText(b)
    ensures PlainText(a + b)
  {
  }

  lemma {:induction false} PlainHasNoSigns(s: string)
    requires PlainText(s)
    ensures ',' !in s && '=' !in s
  {
  }

  lemma {:induction false} FieldIsPlain(n: nat, l: Label)
    ensures PlainText(Field(n, l))
  {
    hide Word, Decimal;
    WordsAreLower(l);
    assert PlainText(Decimal(n)) && PlainText(" ") && PlainText(Word(l));
    hide PlainText;
    PlainSum(Decimal(n), " ");
    PlainSum(Decimal(n) + " ", Word(l));
  }

  lemma {:induction false} FieldIsClean(n: nat, l: Label)
    ensures CleanField(Field(n, l))
  {
    hide Word, Decimal, PlainText, Field;
    FieldParts(n, l);
    FieldIsPlain(n, l);
    PlainHasNoSigns(Field(n, l));
    FieldEnds(n, l);
  }

  lemma {:induction false} FieldEnds(n: nat, l: Label)
    ensures Field(n, l) != "" && !Space(Decimal(n)[0]) && Word(l) != "" && !Space(Word(l)[|Word(l)| - 1])
  {
    WordsAreLower(l);
    assert |Word(l)| > 0;
    hide Word, Decimal;
    assert IsDigit(Decimal(n)[0]);
  }

  lemma {:induction false} PaddedField(pre: string, f: string, post: string)
    requires AllSpaces(pre) && AllSpaces(post) && CleanField(f)
    ensures ',' !in pre + f + post && Strip(pre + f + post) == f
  {
    StripIs(pre, f, post);
    assert forall k | 0 <= k < |pre| :: pre[k] != ',';
    assert forall k | 0 <= k < |post| :: post[k] != ',';
  }

  /** Cutting a joined list at its commas gives back its fields, up to blanks. */
  lemma {:induction false} JoinedParts(pre: string, fs: seq<string>, post: string)
    requires fs != [] && AllSpaces(pre) && AllSpaces(post) && forall k | 0 <= k < |fs| :: CleanField(fs[k])
    ensures var parts := Split(pre + JoinWith(fs, ", ") + post, ',');
            |parts| == |fs| && forall k | 0 <= k < |fs| :: Strip(parts[k]) == fs[k]
    decreases |fs|
  {
    hide Split, Strip, CleanField;
    if |fs| == 1 {
      PaddedField(pre, fs[0], post);
      SplitWord(pre + fs[0] + post, ',');
    } else {
      PaddedField(pre, fs[0], "");
      assert pre + fs[0] + "" == pre + fs[0];
      var rest := " " + JoinWith(fs[1..], ", ") + post;
      JoinedParts(" ", fs[1..], post);
      assert pre + JoinWith(fs, ", ") + post == (pre + fs[0]) + [','] + rest;
      hide JoinWith, AllSpaces;
      SplitFirst(pre + fs[0], rest, ',');
    }
  }

  lemma {:induction false} NoEquals(fs: seq<string>)
    requires fs != [] && forall k | 0 <= k < |fs| :: CleanField(fs[k])
    ensures '=' !in JoinWith(fs, ", ")
  {
    if |fs| > 1 {
      NoEquals(fs[1..]);
    }
  }

  lemma {:induction false} FieldsAreClean(es: seq<Entry>)
    ensures forall k | 0 <= k < |es| :: CleanField(Fields(es)[k])
  {
    forall k | 0 <= k < |es|
      ensures CleanField(Fields(es)[k])
    {
      FieldIsClean(es[k].count, es[k].what);
    }
  }

  lemma {:induction false} JoinedIsLong(fs: seq<string>)
    requires fs != [] && CleanField(fs[0])
    ensures JoinWith(fs, ", ") != ""
  {
  }

  lemma {:induction false} BetweenSigns(j: string)
    requires '=' !in j && j != ""
    ensures var parts := Split("= " + j + " =\n", '=');
            LastBetween(parts) == Some(" " + j + " ") && FirstSpaced(parts) == Some(j)
  {
    var body := " " + j + " ";
    assert "= " + j + " =\n" == "" + ['='] + (body + ['='] + "\n");
    SplitWord("\n", '=');
    SplitFirst(body, "\n", '=');
    SplitFirst("", body + ['='] + "\n", '=');
    hide Split;
    var parts := Split("= " + j + " =\n", '=');
    assert parts == ["", body, "\n"];
    assert parts[2..] == ["\n"] && LastBetween(["\n"]) == None;
    assert body[1..|body| - 1] == j;
  }

  /** Both readers of the written line find its fields. */
  lemma {:induction false} LineParts(c: Counts)
    ensures StrictParts(SummaryLine(c) + "\n") == Split(" " + JoinWith(Fields(Entries(c)), ", ") + " ", ',')
    ensures FirstSpaced(Split(SummaryLine(c) + "\n", '=')) == Some(JoinWith(Fields(Entries(c)), ", "))
  {
    hide Entries, CleanField, JoinWith, Fields, Split, LastBetween, FirstSpaced;
    var es := Entries(c);
    EntriesAreSeven(c);
    FieldsAreClean(es);
    NoEquals(Fields(es));
    JoinedIsLong(Fields(es));
    var j := JoinWith(Fields(es), ", ");
    BetweenSigns(j);
    assert SummaryLine(c) + "\n" == "= " + j + " =\n";
  }

  lemma {:induction false} EntriesAreSeven(c: Counts)
    ensures |Entries(c)| == 7
    ensures forall k | 0 <= k < 7 :: Entries(c)[k].what != Deselected && Entries(c)[k].what != Rerun
  {
  }

  lemma {:induction false} StrictReadsAll(parts: seq<string>, es: seq<Entry>)
    requires |parts| == |es| && forall k | 0 <= k < |es| :: es[k].what != Deselected && es[k].what != Rerun
    requires forall k | 0 <= k < |es| :: Strip(parts[k]) == Field(es[k].count, es[k].what)
    ensures StrictEntries(parts) == Some(es)
  {
    hide Strip, Field, StrictToken;
    if parts != [] {
      var n := |parts| - 1;
      StrictReadsAll(parts[..n], es[..n]);
      StrictReadsField(es[n].count, es[n].what);
      FieldIsClean(es[n].count, es[n].what);
      assert es == es[..n] + [es[n]];
    }
  }

  /** What is left of the entries when those about errors are dropped. */
  function WithoutErrors(es: seq<Entry>): seq<Entry> {
    if es == [] then []
    else WithoutErrors(es[..|es| - 1]) + if es[|es| - 1].what == Errors then [] else [es[|es| - 1]]
  }

  lemma {:induction false} LenientReadsAll(parts: seq<string>, es: seq<Entry>)
    requires |parts| == |es| && forall k | 0 <= k < |es| :: es[k].what != Deselected && es[k].what != Rerun
    requires forall k | 0 <= k < |es| :: Strip(parts[k]) == Field(es[k].count, es[k].what)
    ensures LenientEntries(parts) == WithoutErrors(es)
  {
    hide Strip, Field, LenientToken;
    if parts != [] {
      var n := |parts| - 1;
      LenientReadsAll(parts[..n], es[..n]);
      LenientReadsField(es[n].count, es[n].what);
    }
  }

  lemma {:induction false} GateReadsAll(parts: seq<string>, es: seq<Entry>)
    requires |parts| == |es| && forall k | 0 <= k < |es| :: es[k].what != Errors
    requires forall k | 0 <= k < |es| :: Strip(parts[k]) == Field(es[k].count, es[k].what)
    ensures GateEntries(parts) == Some(es)
  {
    hide Strip, Field, GateToken, OneWord;
    if parts != [] {
      var n := |parts| - 1;
      GateReadsAll(parts[..n], es[..n]);
      GateReadsField(es[n].count, es[n].what);
      FieldIsClean(es[n].count, es[n].what);
      assert es == es[..n] + [es[n]];
    }
  }

  function TalliesOf(c: Counts): Tallies {
    map[Passed := c.passed, Failed := c.failed, Skipped := c.skipped, Xfailed := c.xfailed, Xpassed := c.xpassed,
        Errors := c.errors, Warnings := c.warnings, Deselected := 0, Rerun := 0]
  }

  lemma {:induction false} TalliedNext(t: Tallies, es: seq<Entry>, e: Entry)
    ensures Tallied(t, es + [e]) == Tallied(t, es)[e.what := e.count]
  {
    assert (es + [e])[..|es|] == es;
  }

  lemma {:induction false} TalliedFive(a: Entry, b: Entry, c: Entry, d: Entry, e: Entry)
    ensures Tallied(NO_TALLIES, [a, b, c, d, e]) ==
              NO_TALLIES[a.what := a.count][b.what := b.count][c.what := c.count][d.what := d.count][e.what := e.count]
  {
    TalliedNext(NO_TALLIES, [], a);
    TalliedNext(NO_TALLIES, [a], b);
    TalliedNext(NO_TALLIES, [a, b], c);
    TalliedNext(NO_TALLIES, [a, b, c], d);
    TalliedNext(NO_TALLIES, [a, b, c, d], e);
    assert [] + [a] == [a] && [a] + [b] == [a, b] && [a, b] + [c] == [a, b, c];
    assert [a, b, c] + [d] == [a, b, c, d] && [a, b, c, d] + [e] == [a, b, c, d, e];
  }

  lemma {:induction false} TalliedMore(es: seq<Entry>, f: Entry, g: Entry)
    ensures Tallied(NO_TALLIES, es + [f, g]) == Tallied(NO_TALLIES, es)[f.what := f.count][g.what := g.count]
  {
    hide Tallied;
    TalliedNext(NO_TALLIES, es, f);
    TalliedNext(NO_TALLIES, es + [f], g);
    assert es + [f] + [g] == es + [f, g];
  }

  lemma {:induction false} ErrorDropped(es: seq<Entry>, f: Entry, g: Entry)
    requires (forall k | 0 <= k < |es| :: es[k].what != Errors) && f.what == Errors && g.what != Errors
    ensures WithoutErrors(es + [f, g]) == es + [g]
  {
    FiveKept(es);
    assert (es + [f, g])[..|es| + 1] == es + [f];
    assert (es + [f])[..|es|] == es;
  }

  lemma {:induction false} AllTallied(c: Counts)
    ensures Tallied(NO_TALLIES, Entries(c)) == TalliesOf(c)
  {
    hide Tallied;
    var es := Entries(c);
    TalliedFive(es[0], es[1], es[2], es[3], es[4]);
    TalliedMore([es[0], es[1], es[2], es[3], es[4]], es[5], es[6]);
    assert es == [es[0], es[1], es[2], es[3], es[4]] + [es[5], es[6]];
  }

  lemma {:induction false} AllButErrorsTallied(c: Counts)
    ensures WithoutErrors(Entries(c)) != []
    ensures Tallied(NO_TALLIES, WithoutErrors(Entries(c))) == TalliesOf(c.(errors := 0))
  {
    hide Tallied, WithoutErrors;
    var es := Entries(c);
    var five := [es[0], es[1], es[2], es[3], es[4]];
    assert es == five + [es[5], es[6]];
    ErrorDropped(five, es[5], es[6]);
    TalliedFive(es[0], es[1], es[2], es[3], es[4]);
    TalliedNext(NO_TALLIES, five, es[6]);
  }

  lemma {:induction false} CanonicalTallied(c: Counts)
    ensures Tallied(NO_TALLIES, CanonicalEntries(c)) == TalliesOf(c.(errors := 0, xpassed := 0))
  {
    hide Tallied;
    var cs := CanonicalEntries(c);
    TalliedFive(cs[0], cs[1], cs[2], cs[3], cs[4]);
  }

  lemma {:induction false} FiveKept(es: seq<Entry>)
    requires forall k | 0 <= k < |es| :: es[k].what != Errors
    ensures WithoutErrors(es) == es
  {
    if es != [] {
      FiveKept(es[..|es| - 1]);
      assert es == es[..|es| - 1] + [es[|es| - 1]];
    }
  }

  /** The strict report reads back every count of the written line. */
  lemma {:induction false} StrictRoundTrip(c: Counts)
    ensures StrictCounts(SummaryLine(c) + "\n") == Some(TalliesOf(c))
  {
    hide StrictParts, Entries, JoinWith, TalliesOf, Tallied, SummaryLine, Fields, Split;
    var es := Entries(c);
    LineParts(c);
    EntriesAreSeven(c);
    FieldsAreClean(es);
    JoinedParts(" ", Fields(es), " ");
    StrictReadsAll(Split(" " + JoinWith(Fields(es), ", ") + " ", ','), es);
    AllTallied(c);
  }

  /** The score reporter reads back every count of the written line except the errors, which it does not know. */
  lemma {:induction false} LenientRoundTrip(c: Counts)
    ensures LenientCounts(SummaryLine(c) + "\n") == (TalliesOf(c.(errors := 0)), true)
  {
    hide FirstSpaced, Entries, JoinWith, TalliesOf, Tallied, SummaryLine, Fields, Split;
    var es := Entries(c);
    LineParts(c);
    EntriesAreSeven(c);
    FieldsAreClean(es);
    JoinedParts("", Fields(es), "");
    assert "" + JoinWith(Fields(es), ", ") + "" == JoinWith(Fields(es), ", ");
    LenientReadsAll(Split(JoinWith(Fields(es), ", "), ','), es);
    AllButErrorsTallied(c);
  }

  /** The gate reads back its five counts from its canonical line, behind the equals sign and blank. */
  lemma {:induction false} GateRoundTrip(c: Counts)
    ensures GateCounts(CanonicalLine(c)[2..]) == Some(TalliesOf(c.(errors := 0, xpassed := 0)))
  {
    hide JoinWith, TalliesOf, Tallied, Fields, Split;
    var es := CanonicalEntries(c);
    assert CanonicalLine(c)[2..] == JoinWith(Fields(es), ", ");
    FieldsAreClean(es);
    JoinedParts("", Fields(es), "");
    assert "" + JoinWith(Fields(es), ", ") + "" == JoinWith(Fields(es), ", ");
    GateReadsAll(Split(JoinWith(Fields(es), ", "), ','), es);
    CanonicalTallied(c);
    assert es[0].what == Passed;
  }
}
