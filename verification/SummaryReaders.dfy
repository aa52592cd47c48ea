/** What the three readers of a pytest summary understand: which words, which tokens, and which stretch of a text. */
module SummaryReaders {
  import opened Decimals
  import opened PyStrings
  import opened SummaryText

  // ---------------------------------------------------------------- words

  /** The words of the strict report for a label. */
  function StrictWords(l: Label): set<string> {
    match l
    case Passed => {"pass", "passed", "passes"}
    case Failed => {"fail", "failed", "failures"}
    case Skipped => {"skip", "skipped", "skips"}
    case Xfailed => {"xfailed"}
    case Xpassed => {"xpass", "xpassed"}
    case Errors => {"error", "errors"}
    case Warnings => {"warning", "warnings"}
    case _ => {}
  }

  /** The words of the gate for a label: errors count as failures. */
  function GateWords(l: Label): set<string> {
    match l
    case Passed => {"passed", "pass"}
    case Failed => {"failed", "failures", "errors", "error"}
    case Skipped => {"skipped"}
    case Deselected => {"deselected"}
    case Xfailed => {"xfailed"}
    case Xpassed => {"xpassed"}
    case Warnings => {"warnings", "warning"}
    case Rerun => {"rerun"}
    case Errors => {}
  }

  /** The start of a word by which the score reporter knows a label. */
  function LenientStart(l: Label): Option<string> {
    match l
    case Passed => Some("passed")
    case Failed => Some("failed")
    case Skipped => Some("skipped")
    case Xfailed => Some("xfailed")
    case Xpassed => Some("xpassed")
    case Warnings => Some("warning")
    case _ => None
  }

  lemma {:induction false} StrictByWord(word: string, l: Label)
    ensures StrictLabel(word) == Some(l) <==> word in StrictWords(l)
  {
    StrictWordsApart(word);
  }

  /** No word of the strict report stands for two labels. */
  lemma {:induction false} StrictWordsApart(word: string)
    ensures forall a: Label, b: Label | word in StrictWords(a) && word in StrictWords(b) :: a == b
  {
    if word != "" {
      var c := word[0];
      assert word in StrictWords(Passed) ==> c == 'p';
      assert word in StrictWords(Failed) ==> c == 'f';
      assert word in StrictWords(Skipped) ==> c == 's';
      assert word in StrictWords(Errors) ==> c == 'e';
      assert word in StrictWords(Warnings) ==> c == 'w';
      assert word in StrictWords(Xfailed) ==> c == 'x' && word[1] == 'f';
      assert word in StrictWords(Xpassed) ==> c == 'x' && word[1] == 'p';
    }
  }

  lemma {:induction false} GateByWord(word: string, l: Label)
    ensures GateLabel(word) == Some(l) <==> word in GateWords(l)
  {
    GateWordsApart(word);
  }

  lemma {:induction false} GateWordsApart(word: string)
    ensures forall a: Label, b: Label | word in GateWords(a) && word in GateWords(b) :: a == b
  {
    if word != "" {
      var c := word[0];
      assert word in GateWords(Passed) ==> c == 'p';
      assert word in GateWords(Failed) ==> c == 'f' || c == 'e';
      assert word in GateWords(Skipped) ==> c == 's';
      assert word in GateWords(Deselected) ==> c == 'd';
      assert word in GateWords(Rerun) ==> c == 'r';
      assert word in GateWords(Warnings) ==> c == 'w';
      assert word in GateWords(Xfailed) ==> c == 'x' && word[1] == 'f';
      assert word in GateWords(Xpassed) ==> c == 'x' && word[1] == 'p';
    }
  }

  // ---------------------------------------------------------------- tokens

  predicate Digits(d: string) { d != "" && AllDigits(d) }

  predicate Blanks(b: string) { b != "" && AllSpaces(b) }

  predicate Letters(w: string) { w != "" && forall k | 0 <= k < |w| :: IsLetter(w[k]) }

  lemma {:induction false} LettersAre(c: char)
    ensures IsLetter('a') && IsLetter('z') && IsLetter('A') && IsLetter('Z')
    ensures !IsLetter('`') && !IsLetter('{') && !IsLetter('@') && !IsLetter('[')
    ensures IsLetter(c) ==> !Space(c) && !IsDigit(c) && c != ',' && c != '='
  {
  }

  /** A number, blanks, and the rest. */
  lemma {:induction false} TokenSplits(d: string, blanks: string, rest: string)
    requires Digits(d) && Blanks(blanks) && (rest != "" ==> !Space(rest[0]))
    ensures SplitToken(d + (blanks + rest)) == Some((DecimalValue(d), rest))
  {
    var token := d + (blanks + rest);
    assert (blanks + rest)[0] == blanks[0];
    PrefixIs(d, blanks + rest, IsDigit);
    PrefixIs(blanks, rest, Space);
    hide Prefix, DecimalValue;
    assert token[..|d|] == d && token[|d|..] == blanks + rest && (blanks + rest)[|blanks|..] == rest;
  }

  /** Without a number, or without a blank behind it, there is no token. */
  lemma {:induction false} NoToken(d: string, rest: string)
    requires AllDigits(d) && (rest != "" ==> !IsDigit(rest[0]))
    requires d == "" || rest == "" || !Space(rest[0])
    ensures SplitToken(d + rest).None?
  {
    PrefixIs(d, rest, IsDigit);
    hide DecimalValue;
    assert (d + rest)[|d|..] == rest;
  }

  lemma {:induction false} StrictTokenIs(d: string, blanks: string, w: string, rest: string)
    requires Digits(d) && Blanks(blanks) && Letters(w) && (rest != "" ==> !IsLetter(rest[0]))
    ensures var known := StrictLabel(LowerAll(w));
            StrictToken(d + (blanks + (w + rest)))
            == if known.None? then None else Some(Entry(DecimalValue(d), known.value))
  {
    LettersAre(w[0]);
    assert (w + rest)[0] == w[0];
    TokenSplits(d, blanks, w + rest);
    PrefixIs(w, rest, IsLetter);
    assert (w + rest)[..|w|] == w;
    hide SplitToken, Prefix, StrictLabel, LowerAll, DecimalValue;
  }

  /** The strict report knows a token by its word, in any case, and refuses any other. */
  lemma {:induction false} StrictReads(d: string, blanks: string, w: string, rest: string, l: Label)
    requires Digits(d) && Blanks(blanks) && Letters(w) && (rest != "" ==> !IsLetter(rest[0]))
    ensures var r := StrictToken(d + (blanks + (w + rest)));
            && (LowerAll(w) in StrictWords(l) ==> r == Some(Entry(DecimalValue(d), l)))
            && (r.Some? ==> LowerAll(w) in StrictWords(r.value.what))
  {
    StrictTokenIs(d, blanks, w, rest);
    StrictByWord(LowerAll(w), l);
    if StrictLabel(LowerAll(w)).Some? {
      StrictByWord(LowerAll(w), StrictLabel(LowerAll(w)).value);
    }
    hide *;
  }

  lemma {:induction false} StartsAgree(r: string, u: string, v: string, k: nat)
    requires StartsWithWord(r, u) && StartsWithWord(r, v) && k < |u| && k < |v|
    ensures u[k] == v[k]
  {
    assert u[k] == Lower(r[..|u|][k]) && v[k] == Lower(r[..|v|][k]);
  }

  /** No text starts with two of the words. */
  lemma {:induction false} OneStart(r: string, u: string)
    requires StartsWithWord(r, u) && u in {"passed", "failed", "skipped", "xfailed", "xpassed", "warning"}
    ensures StartsWithWord(r, "passed") ==> u == "passed"
    ensures StartsWithWord(r, "failed") ==> u == "failed"
    ensures StartsWithWord(r, "skipped") ==> u == "skipped"
    ensures StartsWithWord(r, "xfailed") ==> u == "xfailed"
    ensures StartsWithWord(r, "xpassed") ==> u == "xpassed"
    ensures StartsWithWord(r, "warning") ==> u == "warning"
  {
    StartApart(r, u, "passed", 0);
    StartApart(r, u, "failed", 0);
    StartApart(r, u, "skipped", 0);
    StartApart(r, u, "xfailed", 0);
    StartApart(r, u, "xpassed", 0);
    StartApart(r, u, "warning", 0);
    StartApart(r, u, "xfailed", 1);
    StartApart(r, u, "xpassed", 1);
    hide StartsWithWord;
  }

  lemma {:induction false} StartApart(r: string, u: string, v: string, k: nat)
    requires StartsWithWord(r, u) && k < |u| && k < |v|
    ensures StartsWithWord(r, v) ==> u[k] == v[k]
  {
    if StartsWithWord(r, v) {
      StartsAgree(r, u, v, k);
    }
  }

  /** The score reporter looks only at how the rest starts. */
  lemma {:induction false} LenientReads(d: string, blanks: string, w: string, rest: string, l: Label)
    requires Digits(d) && Blanks(blanks) && LenientStart(l) == Some(LowerAll(w))
    ensures LenientToken(d + (blanks + (w + rest))) == Some(Entry(DecimalValue(d), l))
  {
    var r := w + rest;
    StartForm(l);
    assert r[0] == w[0] && r[..|w|] == w;
    assert LowerAll(w)[0] == Lower(w[0]);
    TokenSplits(d, blanks, r);
    assert StartsWithWord(r, LowerAll(w));
    OneStart(r, LowerAll(w));
    hide SplitToken, DecimalValue, LowerAll, StartsWithWord;
  }

  lemma {:induction false} StartForm(l: Label)
    requires LenientStart(l).Some?
    ensures var u := LenientStart(l).value;
            u in {"passed", "failed", "skipped", "xfailed", "xpassed", "warning"} && u != "" && 'a' <= u[0] <= 'z'
  {
  }

  /** Anything else is passed over. */
  lemma {:induction false} LenientSkips(d: string, blanks: string, rest: string)
    requires Digits(d) && Blanks(blanks) && (rest != "" ==> !Space(rest[0]))
    requires !StartsWithWord(rest, "passed") && !StartsWithWord(rest, "failed") && !StartsWithWord(rest, "skipped")
    requires !StartsWithWord(rest, "xfailed") && !StartsWithWord(rest, "xpassed") && !StartsWithWord(rest, "warning")
    ensures LenientToken(d + (blanks + rest)).None?
  {
    TokenSplits(d, blanks, rest);
    hide SplitToken, StartsWithWord;
  }

  lemma {:induction false} GateTokenIs(d: string, blanks: string, w: string, rest: string)
    requires Digits(d) && Blanks(blanks) && w != "" && (forall k | 0 <= k < |w| :: !Space(w[k]))
    requires rest != "" ==> Space(rest[0])
    ensures var token, known := d + (blanks + (w + rest)), GateLabel(LowerAll(w));
            && !OneWord(token)
            && GateToken(token) == if known.None? then None else Some(Entry(DecimalValue(d), known.value))
  {
    SecondWord(d, blanks, w + rest);
    PrefixIs(w, rest, NotSpace);
    assert (w + rest)[..|w|] == w;
    hide Prefix, GateLabel, LowerAll, DecimalValue, Lstrip;
  }

  /** The gate reads the second word, in any case, and refuses an unknown one. */
  lemma {:induction false} GateReads(d: string, blanks: string, w: string, rest: string, l: Label)
    requires Digits(d) && Blanks(blanks) && w != "" && (forall k | 0 <= k < |w| :: !Space(w[k]))
    requires rest != "" ==> Space(rest[0])
    ensures var token := d + (blanks + (w + rest));
            && !OneWord(token)
            && (LowerAll(w) in GateWords(l) ==> GateToken(token) == Some(Entry(DecimalValue(d), l)))
            && (GateToken(token).Some? ==> LowerAll(w) in GateWords(GateToken(token).value.what))
  {
    GateTokenIs(d, blanks, w, rest);
    GateByWord(LowerAll(w), l);
    if GateLabel(LowerAll(w)).Some? {
      GateByWord(LowerAll(w), GateLabel(LowerAll(w)).value);
    }
    hide *;
  }

  lemma {:induction false} SecondWord(d: string, blanks: string, rest: string)
    requires (forall k | 0 <= k < |d| :: !Space(d[k])) && Blanks(blanks) && rest != "" && !Space(rest[0])
    ensures var token := d + (blanks + rest);
            Prefix(token, NotSpace) == |d| && token[..|d|] == d && Lstrip(token[|d|..]) == rest
  {
    var token := d + (blanks + rest);
    assert (blanks + rest)[0] == blanks[0];
    PrefixIs(d, blanks + rest, NotSpace);
    LeadingSpacesAre(blanks, rest);
    assert token[|d|..] == blanks + rest && (blanks + rest)[|blanks|..] == rest;
  }

  /** The gate passes over a token of one word, and refuses one whose first word is no number. */
  lemma {:induction false} GateSkips(a: string, blanks: string, rest: string)
    requires forall k | 0 <= k < |a| :: !Space(a[k])
    ensures OneWord(a)
    ensures Blanks(blanks) && rest != "" && !Space(rest[0]) && !Digits(a) ==> GateToken(a + (blanks + rest)).None?
  {
    PrefixIs(a, "", NotSpace);
    assert a + "" == a && a[|a|..] == "";
    if Blanks(blanks) && rest != "" && !Space(rest[0]) && !Digits(a) {
      SecondWord(a, blanks, rest);
    }
  }

  // ---------------------------------------------------------------- stretches

  /** Between equals signs, of two matches the later counts, and a sign that ends a match starts no other. */
  lemma {:induction false} LastOfFew(a: string, x: string, y: string, z: string, b: string)
    requires x != "" && y != "" && z != ""
    ensures LastBetween([a]).None? && LastBetween([a, b]).None? && LastBetween([a, "", b]).None?
    ensures LastBetween([a, x, b]) == Some(x)
    ensures LastBetween([a, "", x, b]) == Some(x)
    ensures LastBetween([a, x, y, b]) == Some(x)
    ensures LastBetween([a, x, y, z, b]) == Some(z)
    ensures LastBetween([a, x, "", y, b]) == Some(y)
  {
    var parts := [a, x, y, z, b];
    assert [a, "", b][1..] == ["", b] && [a, "", x, b][1..] == ["", x, b];
    assert [a, x, b][2..] == [b] && ["", x, b][2..] == [b];
    assert [a, x, y, b][2..] == [y, b];
    assert parts[2..] == [y, z, b] && [y, z, b][2..] == [b];
    assert [a, x, "", y, b][2..] == ["", y, b] && ["", y, b][2..] == [b];
  }

  /** A stretch with any number of equals signs on both sides is found by both readers. */
  lemma {:induction false} RuledStretch(m: nat, x: string, n: nat)
    requires x != ""
    ensures LastBetween(Signs(m) + ["", x, ""] + Signs(n)) == Some(x)
    ensures FirstSpaced(Signs(m) + ["", " " + x + " ", ""] + Signs(n)) == Some(x)
  {
    var spaced := " " + x + " ";
    if m == 0 {
      assert Signs(0) == [];
      var parts := ["", x, ""] + Signs(n);
      assert [] + ["", x, ""] + Signs(n) == parts;
      assert parts[2..] == Signs(n + 1);
      NothingBetween(n + 1);
      assert [] + ["", spaced, ""] + Signs(n) == ["", spaced, ""] + Signs(n);
      assert spaced[1..|spaced| - 1] == x;
    } else {
      RuledStretch(m - 1, x, n);
      var parts := Signs(m) + ["", x, ""] + Signs(n);
      assert parts[1..] == Signs(m - 1) + ["", x, ""] + Signs(n);
      assert parts[1] == "";
      var other := Signs(m) + ["", spaced, ""] + Signs(n);
      assert other[1..] == Signs(m - 1) + ["", spaced, ""] + Signs(n);
      assert other[1] == "";
    }
  }

  /** The parts between `n` equals signs that follow each other. */
  function Signs(n: nat): (parts: seq<string>)
    ensures |parts| == n && forall k | 0 <= k < n :: parts[k] == ""
  {
    seq(n, k => "")
  }

  lemma {:induction false} NothingBetween(n: nat)
    ensures LastBetween(Signs(n)).None?
  {
    if n >= 3 {
      assert Signs(n)[1..] == Signs(n - 1);
      NothingBetween(n - 1);
    }
  }

  /** The first stretch set off by blanks counts; others are passed over. */
  lemma {:induction false} FirstOfFew(a: string, x: string, y: string, b: string)
    requires |x| >= 3 && Space(x[0]) && Space(x[|x| - 1])
    ensures FirstSpaced([a, x, b]) == Some(x[1..|x| - 1]) && FirstSpaced([a, x, y, b]) == Some(x[1..|x| - 1])
    ensures (y == "" || !Space(y[0]) || !Space(y[|y| - 1]) || |y| < 3) ==>
              FirstSpaced([a, y, x, b]) == Some(x[1..|x| - 1]) && FirstSpaced([a, y, b]).None?
    ensures FirstSpaced([a, x]).None?
  {
    assert [a, y, x, b][1..] == [y, x, b] && [a, y, b][1..] == [y, b];
  }

  // ---------------------------------------------------------------- counts

  /** Of two counts of a label the later one stays, and a label without a count has none. */
  lemma {:induction false} LastCounts(es: seq<Entry>, l: Label, k: nat)
    requires k <= |es| && (forall j | k <= j < |es| :: es[j].what != l) && (k > 0 ==> es[k - 1].what == l)
    ensures l in Tallied(NO_TALLIES, es) && Tallied(NO_TALLIES, es)[l] == if k > 0 then es[k - 1].count else 0
  {
    if es == [] {
      NothingTallied(l);
    } else {
      var last := |es| - 1;
      if k <= last {
        LastCounts(es[..last], l, k);
      }
    }
  }

  lemma {:induction false} NothingTallied(l: Label)
    ensures l in NO_TALLIES && NO_TALLIES[l] == 0
  {
  }
}
