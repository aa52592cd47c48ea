/** What the mode axis of a job says as it is written, in a list below its key or on the line of the key. */
module AxisTexts {
  import opened PyStrings
  import opened StepBlocks
  import opened WorkflowLines
  import opened JobMatrix

  // ---------------------------------------------------------------- items

  predicate Blanks(s: string) { forall k | 0 <= k < |s| :: s[k] == ' ' }

  /** A word without blanks, quotes, brackets and commas. */
  predicate CleanWord(w: string) {
    w != "" && forall k | 0 <= k < |w| ::
      !Space(w[k]) && w[k] != '\'' && w[k] != '"' && w[k] != '[' && w[k] != ']' && w[k] != ','
  }

  predicate Quote(q: string) { q == "" || q == "'" || q == "\"" }

  /** A word as it may be written: with or without quotes, between blanks. */
  datatype Item = Item(pre: string, quote: string, word: string, post: string) {
    function Core(): string { quote + word + quote }

    function Text(): string { pre + Core() + post }

    predicate Valid() { Blanks(pre) && Blanks(post) && Quote(quote) && CleanWord(word) }
  }

  predicate AllValid(items: seq<Item>) { forall k | 0 <= k < |items| :: items[k].Valid() }

  function Words(items: seq<Item>): (ws: seq<string>)
    ensures |ws| == |items| && forall k | 0 <= k < |ws| :: ws[k] == items[k].word
  {
    seq(|items|, k requires 0 <= k < |items| => items[k].word)
  }

  function Texts(items: seq<Item>): (ts: seq<string>)
    ensures |ts| == |items| && forall k | 0 <= k < |ts| :: ts[k] == items[k].Text()
  {
    seq(|items|, k requires 0 <= k < |items| => items[k].Text())
  }

  lemma {:induction false} BlanksAreSpaces(s: string)
    requires Blanks(s)
    ensures AllSpaces(s)
  {
  }

  lemma {:induction false} CoreForm(i: Item)
    requires i.Valid()
    ensures var c := i.Core();
            c != "" && !Space(c[0]) && !Space(c[|c| - 1]) && NoneOf(c, "[] ") && NoneOf(i.word, "'\"")
    ensures forall k | 0 <= k < |i.Core()| :: i.Core()[k] != ','
  {
    var c, w := i.Core(), i.word;
    assert !Space(w[0]) && !Space(w[|w| - 1]);
    assert forall k | 0 <= k < |w| :: c[|i.quote| + k] == w[k];
  }

  /** An item is read as its word. */
  lemma {:induction false} ItemReads(i: Item)
    requires i.Valid()
    ensures Strip(i.Text()) != "" && StripSet(Strip(i.Text()), "'\"") == i.word
  {
    hide Strip, StripSet, CleanWord;
    CoreForm(i);
    BlanksAreSpaces(i.pre);
    BlanksAreSpaces(i.post);
    StripIs(i.pre, i.Core(), i.post);
    StripSetIs(i.quote, i.word, i.quote, "'\"");
  }

  // ---------------------------------------------------------------- a list below the key

  ghost predicate ItemLine(l: Line, i: Item) { !l.shape.Blank() && l.text == "- " + i.Text() && i.Valid() }

  /** Lines `i..end` list the items, at `places`, below a key of depth `indent`: everything else there is blank, or
      deeper and no item; and the line at `end`, if there is one, is no deeper than the key. */
  ghost predicate Lists(lines: seq<Line>, i: nat, end: nat, indent: nat, items: seq<Item>, places: seq<nat>) {
    && i <= end <= |lines| && |places| == |items|
    && (forall k | 0 <= k < |places| :: i <= places[k] < end && ItemLine(lines[places[k]], items[k]))
    && (forall j, k | 0 <= j < k < |places| :: places[j] < places[k])
    && (forall x: nat | i <= x < end :: lines[x].shape.Blank()
          || (indent < lines[x].Indent() && (x in places || !("- " <= lines[x].text))))
    && (end < |lines| ==> !lines[end].shape.Blank() && lines[end].Indent() <= indent)
  }

  lemma {:induction false} ItemAtStart(l: Line, i: Item)
    requires ItemLine(l, i)
    ensures "- " <= l.text && StripSet(Strip(l.text[2..]), "'\"") == i.word
  {
    ItemReads(i);
    assert l.text[2..] == i.Text();
  }

  lemma {:induction false} FirstPlace(lines: seq<Line>, i: nat, end: nat, indent: nat, items: seq<Item>,
                                      places: seq<nat>)
    requires Lists(lines, i, end, indent, items, places) && places != []
    ensures i <= places[0] < end && ItemLine(lines[places[0]], items[0])
  {
    hide ItemLine;
  }

  lemma {:induction false} ListsItem(lines: seq<Line>, i: nat, end: nat, indent: nat, items: seq<Item>,
                                     places: seq<nat>)
    requires Lists(lines, i, end, indent, items, places) && i in places
    ensures places[0] == i && items != [] && ItemLine(lines[i], items[0]) && i < end && indent < lines[i].Indent()
    ensures Lists(lines, i + 1, end, indent, items[1..], places[1..])
  {
    hide ItemLine;
    FirstPlace(lines, i, end, indent, items, places);
    assert forall j | 0 < j < |places| :: places[0] < places[j];
    ItemIsThere(lines[i], items[0]);
    forall x: nat | i + 1 <= x < end && x in places
      ensures x in places[1..]
    {
      var j :| 0 <= j < |places| && places[j] == x;
      assert places[1..][j - 1] == x;
    }
  }

  lemma {:induction false} ListsOther(lines: seq<Line>, i: nat, end: nat, indent: nat, items: seq<Item>,
                                      places: seq<nat>)
    requires Lists(lines, i, end, indent, items, places) && i !in places && i < end
    ensures Lists(lines, i + 1, end, indent, items, places)
    ensures lines[i].shape.Blank() || (indent < lines[i].Indent() && !("- " <= lines[i].text))
  {
    hide ItemLine;
    forall k | 0 <= k < |places|
      ensures i + 1 <= places[k]
    {
      assert places[k] in places;
    }
  }

  lemma {:induction false} ListsEnd(lines: seq<Line>, end: nat, indent: nat, items: seq<Item>, places: seq<nat>)
    requires Lists(lines, end, end, indent, items, places)
    ensures items == [] && end <= |lines|
    ensures end < |lines| ==> !lines[end].shape.Blank() && lines[end].Indent() <= indent
  {
    if places != [] {
      FirstPlace(lines, end, end, indent, items, places);
      assert false;
    }
  }

  /** The list is read as the words of its items. */
  lemma {:induction false} ListReads(lines: seq<Line>, i: nat, end: nat, indent: nat, items: seq<Item>,
                                     places: seq<nat>)
    requires Lists(lines, i, end, indent, items, places)
    ensures i <= |lines| && ListedModes(lines, i, indent) == Words(items)
    decreases end - i
  {
    hide Strip, StripSet, ItemLine;
    if i == end {
      ListsEnd(lines, end, indent, items, places);
      hide Lists;
    } else if i in places {
      ListsItem(lines, i, end, indent, items, places);
      ItemAtStart(lines[i], items[0]);
      ItemIsThere(lines[i], items[0]);
      ListReads(lines, i + 1, end, indent, items[1..], places[1..]);
      hide Lists;
      assert Words(items) == [items[0].word] + Words(items[1..]);
    } else {
      ListsOther(lines, i, end, indent, items, places);
      ListReads(lines, i + 1, end, indent, items, places);
      hide Lists;
    }
  }

  lemma {:induction false} ItemIsThere(l: Line, i: Item)
    requires ItemLine(l, i)
    ensures !l.shape.Blank()
  {
  }

  // ---------------------------------------------------------------- items on the line of the key

  lemma {:induction false} PartsRead(items: seq<Item>)
    requires AllValid(items)
    ensures InlineParts(Texts(items)) == Words(items)
  {
    hide Strip, StripSet, Item.Valid, Item.Text;
    if items != [] {
      ItemReads(items[0]);
      PartsRead(items[1..]);
      assert Texts(items)[1..] == Texts(items[1..]);
      assert Words(items) == [items[0].word] + Words(items[1..]);
    }
  }

  lemma {:induction false} TextsSplit(items: seq<Item>)
    requires AllValid(items) && items != []
    ensures Split(Join(Texts(items), ','), ',') == Texts(items)
  {
    hide Split, Join;
    forall p | p in Texts(items)
      ensures ',' !in p
    {
      var k :| 0 <= k < |items| && p == items[k].Text();
      CoreForm(items[k]);
    }
    SplitJoin(Texts(items), ',');
  }

  lemma {:induction false} JoinFront(a: string, b: string, rest: seq<string>)
    ensures Join([a + b] + rest, ',') == a + Join([b] + rest, ',')
  {
    assert ([a + b] + rest)[1..] == rest == ([b] + rest)[1..];
  }

  lemma {:induction false} JoinBack(parts: seq<string>, a: string, b: string)
    ensures Join(parts + [a + b], ',') == Join(parts + [a], ',') + b
  {
    if parts != [] {
      assert (parts + [a + b])[1..] == parts[1..] + [a + b] && (parts + [a])[1..] == parts[1..] + [a];
      JoinBack(parts[1..], a, b);
    }
  }

  /** The items without the blanks before the first and after the last one. */
  function Trimmed(items: seq<Item>): (ts: seq<Item>)
    requires items != []
    ensures |ts| == |items|
  {
    var front := [items[0].(pre := "")] + items[1..];
    front[..|front| - 1] + [front[|front| - 1].(post := "")]
  }

  lemma {:induction false} TrimmedWords(items: seq<Item>)
    requires items != [] && AllValid(items)
    ensures AllValid(Trimmed(items)) && Words(Trimmed(items)) == Words(items)
  {
    hide CleanWord, Quote;
  }

  lemma {:induction false} TextSplits(i: Item)
    ensures i.Text() == i.pre + i.(pre := "").Text() && i.Text() == i.(post := "").Text() + i.post
  {
  }

  lemma {:induction false} FrontTrimmed(i: Item, rest: seq<Item>)
    ensures Join(Texts([i] + rest), ',') == i.pre + Join(Texts([i.(pre := "")] + rest), ',')
  {
    hide Join;
    var bare := i.(pre := "");
    TextSplits(i);
    assert Texts([i] + rest) == [i.pre + bare.Text()] + Texts(rest);
    assert Texts([bare] + rest) == [bare.Text()] + Texts(rest);
    JoinFront(i.pre, bare.Text(), Texts(rest));
  }

  lemma {:induction false} BackTrimmed(init: seq<Item>, e: Item)
    ensures Join(Texts(init + [e]), ',') == Join(Texts(init + [e.(post := "")]), ',') + e.post
  {
    hide Join;
    var bare := e.(post := "");
    TextSplits(e);
    assert Texts(init + [e]) == Texts(init) + [bare.Text() + e.post];
    assert Texts(init + [bare]) == Texts(init) + [bare.Text()];
    JoinBack(Texts(init), bare.Text(), e.post);
  }

  lemma {:induction false} TrimmedForm(items: seq<Item>) returns (init: seq<Item>, e: Item)
    requires items != []
    ensures items == [items[0]] + items[1..] && [items[0].(pre := "")] + items[1..] == init + [e]
    ensures Trimmed(items) == init + [e.(post := "")] && e.post == items[|items| - 1].post
  {
    var n, front := |items| - 1, [items[0].(pre := "")] + items[1..];
    init, e := front[..n], front[n];
  }

  lemma {:induction false} TrimmedJoin(items: seq<Item>)
    requires items != []
    ensures Join(Texts(items), ',') == items[0].pre + Join(Texts(Trimmed(items)), ',') + items[|items| - 1].post
  {
    var init, e := TrimmedForm(items);
    FrontTrimmed(items[0], items[1..]);
    BackTrimmed(init, e);
    hide *;
    var j := Join(Texts(init + [e.(post := "")]), ',');
    assert items[0].pre + (j + e.post) == items[0].pre + j + e.post;
  }

  /** A joined text starts with its first part and ends with its last one. */
  lemma {:induction false} JoinEnds(parts: seq<string>)
    requires parts != [] && parts[0] != "" && parts[|parts| - 1] != ""
    ensures var j := Join(parts, ','); j != "" && j[0] == parts[0][0]
    ensures var j, p := Join(parts, ','), parts[|parts| - 1]; j[|j| - 1] == p[|p| - 1]
  {
    if |parts| > 1 {
      var p, q := parts[|parts| - 1], parts[..|parts| - 1];
      assert "" + p == p && parts == q + [p];
      JoinBack(q, "", p);
    }
  }

  lemma {:induction false} TrimmedEnds(items: seq<Item>)
    requires items != [] && AllValid(items)
    ensures NoneOf(Join(Texts(Trimmed(items)), ','), "[] ")
    ensures var j := Join(Texts(Trimmed(items)), ','); !Space(j[0]) && !Space(j[|j| - 1])
  {
    hide Join, CleanWord, Quote;
    var ts := Trimmed(items);
    TrimmedWords(items);
    var a, b := ts[0], ts[|ts| - 1];
    CoreForm(a);
    CoreForm(b);
    assert a.Text()[0] == a.Core()[0];
    assert b.Text()[|b.Text()| - 1] == b.Core()[|b.Core()| - 1];
    JoinEnds(Texts(ts));
  }

  predicate Brackets(s: string) { forall k | 0 <= k < |s| :: s[k] == '[' || s[k] == ']' || s[k] == ' ' }

  /** Stripping a text inside brackets and blanks leaves brackets and blanks around it. */
  lemma {:induction false} StripInside(x: string, core: string, y: string) returns (x1: string, y1: string)
    requires Brackets(x) && Brackets(y) && core != "" && !Space(core[0]) && !Space(core[|core| - 1])
    ensures Strip(x + core + y) == x1 + core + y1 && Brackets(x1) && Brackets(y1)
  {
    hide LeadingSpaces, Rstrip, Space;
    var s := x + core + y;
    var l := LeadingSpaces(s);
    assert s[|x|] == core[0];
    assert l <= |x|;
    var t := s[l..];
    assert t == x[l..] + core + y;
    var r := Rstrip(t);
    var n := |x| - l + |core|;
    assert t[n - 1] == core[|core| - 1];
    assert n <= |r|;
    x1, y1 := x[l..], y[..|r| - n];
    assert t[..|r|] == x1 + core + y1;
  }

  lemma {:induction false} BracketsGo(x: string, core: string, y: string)
    requires Brackets(x) && Brackets(y) && NoneOf(core, "[] ")
    ensures StripSet(x + core + y, "[] ") == core
  {
    StripSetIs(x, core, y, "[] ");
  }

  /** The key with a list on its line, in brackets or without. */
  function InlineText(pre: string, bracketed: bool, items: seq<Item>, post: string): string
    requires items != []
  {
    "mode:" + pre + (if bracketed then "[" else "") + Join(Texts(items), ',') + (if bracketed then "]" else "") + post
  }

  lemma {:induction false} InlineShape(pre: string, bracketed: bool, items: seq<Item>, post: string)
    returns (x: string, y: string)
    requires items != [] && AllValid(items) && Blanks(pre) && Blanks(post)
    ensures Brackets(x) && Brackets(y)
    ensures InlineText(pre, bracketed, items, post) == "mode:" + (x + Join(Texts(Trimmed(items)), ',') + y)
  {
    hide Join, CleanWord;
    TrimmedJoin(items);
    x := pre + (if bracketed then "[" else "") + items[0].pre;
    y := items[|items| - 1].post + (if bracketed then "]" else "") + post;
    assert items[0].Valid() && items[|items| - 1].Valid();
  }

  lemma {:induction false} LongerThanKey(rest: string, k: nat)
    requires k < |rest| && !Space(rest[k])
    ensures Strip("mode:" + rest) != "mode:"
  {
    hide Rstrip;
    var s := "mode:" + rest;
    assert LeadingSpaces(s) == 0 by { assert s[0] == 'm'; }
    assert s[0..] == s;
    assert s[5 + k] == rest[k];
    assert 5 + k < |Rstrip(s)|;
  }

  /** The list on the line of the key is read as the words of its items. */
  lemma {:induction false} InlineReads(pre: string, bracketed: bool, items: seq<Item>, post: string)
    requires items != [] && AllValid(items) && Blanks(pre) && Blanks(post)
    ensures var text := InlineText(pre, bracketed, items, post);
            InlineModes(text) == Words(items) && Strip(text) != "mode:"
  {
    hide *;
    var text, core := InlineText(pre, bracketed, items, post), Join(Texts(Trimmed(items)), ',');
    var x, y := InlineShape(pre, bracketed, items, post);
    TrimmedEnds(items);
    NotEmpty(core);
    LongerThanKey(x + core + y, |x|);
    var x1, y1 := StripInside(x, core, y);
    BracketsGo(x1, core, y1);
    TrimmedWords(items);
    TextsSplit(Trimmed(items));
    PartsRead(Trimmed(items));
    InlineModesForm(x + core + y);
  }

  lemma {:induction false} NotEmpty(core: string)
    requires NoneOf(core, "[] ")
    ensures core != ""
  {
  }

  lemma {:induction false} InlineModesForm(rest: string)
    ensures InlineModes("mode:" + rest) == InlineParts(Split(StripSet(Strip(rest), "[] "), ','))
  {
    hide Split, StripSet, Strip, InlineParts;
    assert ("mode:" + rest)[5..] == rest;
  }

  // ---------------------------------------------------------------- the axis in the job

  /** A line that is blank, or deeper than `depth` and none of the keys looked for. */
  predicate Passed(l: Line, depth: nat, keys: set<Kind>) {
    l.shape.Blank() || (depth < l.Indent() && l.shape.kind !in keys)
  }

  /** The strategy of the job is at `s`. */
  ghost predicate StrategyAt(lines: seq<Line>, start: nat, end: nat, s: nat) {
    && start < s < end <= |lines| && lines[s].shape.kind == StrategyKey && lines[start].Indent() < lines[s].Indent()
    && forall k | start < k < s :: Passed(lines[k], lines[start].Indent(), {StrategyKey})
  }

  /** The strategy of the job is at `s`, and its matrix at `m`. */
  ghost predicate MatrixAt(lines: seq<Line>, start: nat, end: nat, s: nat, m: nat) {
    && StrategyAt(lines, start, end, s) && s < m < end
    && lines[m].shape.kind == MatrixKey && lines[s].Indent() < lines[m].Indent()
    && forall k | s < k < m :: Passed(lines[k], lines[s].Indent(), {StrategyKey, MatrixKey})
  }

  /** The strategy of the job is at `s`, its matrix at `m`, and the mode axis at `a`. */
  ghost predicate AxisAt(lines: seq<Line>, start: nat, end: nat, s: nat, m: nat, a: nat) {
    && MatrixAt(lines, start, end, s, m) && m < a < end
    && lines[a].shape.kind == ModeKey && lines[m].Indent() < lines[a].Indent()
    && forall k | m < k < a :: Passed(lines[k], lines[m].Indent(), {StrategyKey, MatrixKey, ModeKey})
  }

  lemma {:induction false} ScanPasses(lines: seq<Line>, i: nat, j: nat, end: nat, job: nat, f: Found)
    requires i <= j <= end <= |lines| && Before(lines, f, i)
    requires forall k | i <= k < j :: Before(lines, f, k) && !Stops(lines, job, f, k) && Noted(f, lines[k], k) == f
    ensures Before(lines, f, j) && ScanMatrix(lines, i, end, job, f) == ScanMatrix(lines, j, end, job, f)
    decreases j - i
  {
    hide Stops, Noted, ScanMatrix;
    if i < j {
      ScanStep(lines, i, end, job, f);
      ScanPasses(lines, i + 1, j, end, job, f);
    }
  }

  lemma {:induction false} ScanToStrategy(lines: seq<Line>, start: nat, end: nat, s: nat)
    requires StrategyAt(lines, start, end, s)
    ensures var job, f := lines[start].Indent(), Found(Some(s), None, None);
            Before(lines, f, s + 1)
            && ScanMatrix(lines, start + 1, end, job, NOTHING) == ScanMatrix(lines, s + 1, end, job, f)
  {
    var job := lines[start].Indent();
    ScanPasses(lines, start + 1, s, end, job, NOTHING);
    ScanStep(lines, s, end, job, NOTHING);
    hide ScanMatrix;
  }

  lemma {:induction false} ScanToMatrix(lines: seq<Line>, start: nat, end: nat, s: nat, m: nat)
    requires MatrixAt(lines, start, end, s, m)
    ensures var job, f := lines[start].Indent(), Found(Some(s), Some(m), None);
            Before(lines, f, m + 1)
            && ScanMatrix(lines, start + 1, end, job, NOTHING) == ScanMatrix(lines, m + 1, end, job, f)
  {
    var job, f := lines[start].Indent(), Found(Some(s), None, None);
    ScanToStrategy(lines, start, end, s);
    ScanPasses(lines, s + 1, m, end, job, f);
    ScanStep(lines, m, end, job, f);
    hide ScanMatrix;
  }

  lemma {:induction false} ScanToAxis(lines: seq<Line>, start: nat, end: nat, s: nat, m: nat, a: nat)
    requires AxisAt(lines, start, end, s, m, a)
    ensures ScanMatrix(lines, start + 1, end, lines[start].Indent(), NOTHING) == Found(Some(s), Some(m), Some(a))
  {
    var job, f := lines[start].Indent(), Found(Some(s), Some(m), None);
    ScanToMatrix(lines, start, end, s, m);
    ScanPasses(lines, m + 1, a, end, job, f);
    ScanStep(lines, a, end, job, f);
    hide ScanMatrix;
  }

  lemma {:induction false} AxisVerdict(lines: seq<Line>, start: nat, end: nat, s: nat, m: nat, a: nat)
    requires AxisAt(lines, start, end, s, m, a)
    ensures MatrixEdit(lines, start, end) == if Modes(lines, a) == ["stub", "redis"] then Existing else Conflict
  {
    hide Modes, StrategyLine, MatrixLine, ModeLine, StepsIndex, ScanMatrix;
    ScanToAxis(lines, start, end, s, m, a);
  }

  /** A job that lists its modes below the key has the axis exactly if they are stub and redis, in this order; any other
      list is a conflict. */
  lemma {:induction false} ListedAxis(lines: seq<Line>, start: nat, end: nat, s: nat, m: nat, a: nat, e: nat,
                                      items: seq<Item>, places: seq<nat>)
    requires AxisAt(lines, start, end, s, m, a) && lines[a].text == "mode:"
    requires Lists(lines, a + 1, e, lines[a].Indent(), items, places)
    ensures MatrixEdit(lines, start, end) == if Words(items) == ["stub", "redis"] then Existing else Conflict
  {
    hide MatrixEdit, ListedModes, Lists;
    AxisVerdict(lines, start, end, s, m, a);
    ListReads(lines, a + 1, e, lines[a].Indent(), items, places);
    assert Strip("mode:") == "mode:" by {
      StripIs("", "mode:", "");
      assert "" + "mode:" + "" == "mode:";
    }
  }

  /** The same for modes on the line of the key. */
  lemma {:induction false} InlineAxis(lines: seq<Line>, start: nat, end: nat, s: nat, m: nat, a: nat, pre: string,
                                      bracketed: bool, items: seq<Item>, post: string)
    requires AxisAt(lines, start, end, s, m, a) && items != [] && AllValid(items) && Blanks(pre) && Blanks(post)
    requires lines[a].text == InlineText(pre, bracketed, items, post)
    ensures MatrixEdit(lines, start, end) == if Words(items) == ["stub", "redis"] then Existing else Conflict
  {
    hide MatrixEdit, InlineText, InlineModes, Strip;
    AxisVerdict(lines, start, end, s, m, a);
    InlineReads(pre, bracketed, items, post);
  }

  // ---------------------------------------------------------------- a missing axis

  lemma {:induction false} StepsFirst(lines: seq<Line>, i: nat, end: nat, none: nat, j: nat)
    requires i <= j <= end <= |lines| && forall k | i <= k < j :: !lines[k].shape.kind.StepsKey?
    requires j < end ==> lines[j].shape.kind.StepsKey?
    ensures StepsIndex(lines, i, end, none) == if j < end then j else none
    decreases j - i
  {
    if i < j {
      StepsFirst(lines, i + 1, end, none, j);
    }
  }

  /** A job without a strategy gets all three keys, right before its first steps key `j`, or else behind its own. */
  lemma {:induction false} StrategyIsAdded(lines: seq<Line>, start: nat, end: nat, j: nat)
    requires start < j <= end <= |lines|
    requires forall k | start < k < end :: Passed(lines[k], lines[start].Indent(), {StrategyKey})
    requires (forall k | start < k < j :: !lines[k].shape.kind.StepsKey?) && (j < end ==> lines[j].shape.kind.StepsKey?)
    ensures var n := lines[start].Indent();
            MatrixEdit(lines, start, end)
            == Add(if j < end then j else start + 1,
                   [Read(n + 2, "strategy:"), Read(n + 4, "matrix:"), Read(n + 6, "mode: [stub, redis]")])
  {
    hide Modes, Read;
    ScanPasses(lines, start + 1, end, end, lines[start].Indent(), NOTHING);
    ScanStep(lines, end, end, lines[start].Indent(), NOTHING);
    StepsFirst(lines, start + 1, end, start + 1, j);
    hide ScanMatrix, StepsIndex;
  }

  /** A strategy without a matrix gets both other keys right behind it. */
  lemma {:induction false} MatrixIsAdded(lines: seq<Line>, start: nat, end: nat, s: nat, e: nat)
    requires StrategyAt(lines, start, end, s) && s < e <= end
    requires forall k | s < k < e :: Passed(lines[k], lines[s].Indent(), {StrategyKey, MatrixKey})
    requires e < end ==>
               !lines[e].shape.Blank() && lines[e].Indent() <= lines[s].Indent() && !lines[e].shape.kind.StrategyKey?
    ensures var n := lines[s].Indent();
            MatrixEdit(lines, start, end) == Add(s + 1, [Read(n + 2, "matrix:"), Read(n + 4, "mode: [stub, redis]")])
  {
    hide Modes, Read;
    var job, f := lines[start].Indent(), Found(Some(s), None, None);
    ScanToStrategy(lines, start, end, s);
    ScanPasses(lines, s + 1, e, end, job, f);
    ScanStep(lines, e, end, job, f);
    hide ScanMatrix, StepsIndex;
  }

  /** A matrix without the axis gets it right behind its key. */
  lemma {:induction false} ModeIsAdded(lines: seq<Line>, start: nat, end: nat, s: nat, m: nat, e: nat)
    requires MatrixAt(lines, start, end, s, m) && m < e <= end
    requires forall k | m < k < e :: Passed(lines[k], lines[m].Indent(), {StrategyKey, MatrixKey, ModeKey})
    requires e < end ==>
               && !lines[e].shape.Blank() && lines[e].Indent() <= lines[m].Indent()
               && !lines[e].shape.kind.StrategyKey? && !lines[e].shape.kind.MatrixKey?
    ensures MatrixEdit(lines, start, end) == Add(m + 1, [Read(lines[m].Indent() + 2, "mode: [stub, redis]")])
  {
    hide Modes, Read;
    var job, f := lines[start].Indent(), Found(Some(s), Some(m), None);
    ScanToMatrix(lines, start, end, s, m);
    ScanPasses(lines, m + 1, e, end, job, f);
    ScanStep(lines, e, end, job, f);
    hide ScanMatrix, StepsIndex;
  }
}
