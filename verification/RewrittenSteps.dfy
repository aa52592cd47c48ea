/** What a rewritten step is: when it is one step, when it runs the runner, and when it no longer runs pytest. */
module RewrittenSteps {
  import opened PyStrings
  import opened StepBlocks
  import opened WorkflowLines
  import opened StepNames
  import opened StepRewriter

  // ---------------------------------------------------------------- the keys that the rewriter reads

  /** Line `k` belongs to an env mapping or to a run key. */
  ghost predicate Enclosed(b: seq<Line>, k: nat) {
    exists j: nat :: Under(Shapes(b), j, k) && (b[j].shape.Env() || b[j].shape.Run())
  }

  /** The step has a name of its own. */
  ghost predicate HasName(b: seq<Line>) {
    exists k: nat | k < |b| :: !Enclosed(b, k) && Named(b[k].text)
  }

  /** The step has a run key of its own. */
  ghost predicate HasRun(b: seq<Line>) {
    exists k: nat | k < |b| :: !Enclosed(b, k) && b[k].shape.Run()
  }

  /** From line `j` on, a line runs pytest before any run key and before any line of depth at most `depth`. */
  ghost predicate Leads(t: Text, j: nat, depth: nat)
    decreases |t| - j
  {
    j < |t| && depth < t[j].indent && !t[j].Run() && (t[j].pytest || Leads(t, j + 1, depth))
  }

  /** Key `k` leaves a pytest run behind: a run key in an env mapping is copied as it is, and the key written for a run
      key takes in the deeper lines that follow. */
  ghost predicate Leaves(b: seq<Line>, step: nat, k: nat)
    requires k < |b|
  {
    if b[k].shape.Env() then exists r: nat :: Under(Shapes(b), k, r) && Hot(Shapes(b), r)
    else b[k].shape.Run() && Leads(Shapes(b), NextLine(b, k), step + 2)
  }

  ghost predicate LeavesSome(b: seq<Line>, step: nat) {
    exists k: nat | k < |b| :: !Enclosed(b, k) && Leaves(b, step, k)
  }

  /** The step has an env mapping of its own. */
  ghost predicate HasEnv(b: seq<Line>) {
    exists k: nat | k < |b| :: !Enclosed(b, k) && b[k].shape.Env()
  }

  ghost predicate IsLastRun(b: seq<Line>, l: nat) {
    && l < |b| && !Enclosed(b, l) && b[l].shape.Run()
    && forall k: nat | l < k < |b| && !Enclosed(b, k) :: !b[k].shape.Run()
  }

  /** The flag is put before the last line written for line `j`, which is read right before the last run key: without a
      name, the line put first makes the place of that key one line too early. */
  ghost predicate FlagBefore(b: seq<Line>, j: nat) {
    && j < |b| && !Enclosed(b, j) && !HasName(b) && !HasEnv(b)
    && IsLastRun(b, NextLine(b, j))
  }

  /** The flag is put between key `k` and every pytest line that follows it. */
  ghost predicate CutOff(b: seq<Line>, step: nat, k: nat)
    requires k < |b|
  {
    exists j: nat :: FlagBefore(b, j) && k <= j && !Leads(Shapes(b)[..j], NextLine(b, k), step + 2)
  }

  /** The step still runs pytest after being rewritten: a key leaves a pytest run behind, and the flag does not cut it
      off. */
  ghost predicate StaysHot(b: seq<Line>, step: nat) {
    exists k: nat | k < |b| :: !Enclosed(b, k) && Leaves(b, step, k) && !CutOff(b, step, k)
  }

  /** The rewriter, reading from line `i`, reads line `k` by itself. */
  ghost predicate Reads(b: seq<Line>, i: nat, k: nat)
    requires k < |b|
    decreases k - i
  {
    i == k || (i < k && Reads(b, NextLine(b, i), k))
  }

  lemma {:induction false} KeyIsNoName(l: Line)
    requires WellRead(l) && (l.shape.Run() || l.shape.Env())
    ensures !Named(l.text)
  {
    if Named(l.text) {
      SuffixedKeepsShape(l);
    }
  }

  lemma {:induction false} SkippedIsEnclosed(b: seq<Line>, i: nat, k: nat)
    requires i < k < |b| && k < NextLine(b, i)
    ensures Enclosed(b, k)
  {
    assert Under(Shapes(b), i, k);
  }

  /** What belongs to a key inside a stretch read at once belongs to that stretch. */
  lemma {:induction false} InnerKeySkips(b: seq<Line>, i: nat, k: nat, j: nat)
    requires AllRead(b) && i < |b| && i <= j < NextLine(b, i) && Under(Shapes(b), j, k)
    requires b[j].shape.Env() || b[j].shape.Run()
    ensures k < NextLine(b, i)
  {
    hide WellRead, Named;
    KeyIsNoName(b[j]);
    assert j == i || Deeper(b[j], b[i].Indent());
    forall y | j < y <= k
      ensures Deeper(b[y], b[i].Indent())
    {
      assert Shapes(b)[y] == b[y].shape;
    }
  }

  lemma {:induction false} OwnLineIsRead(b: seq<Line>, i: nat, k: nat)
    requires AllRead(b) && i <= k < |b| && !Enclosed(b, k)
    ensures Reads(b, i, k)
    decreases k - i
  {
    hide WellRead, Named;
    if i < k {
      if k < NextLine(b, i) {
        SkippedIsEnclosed(b, i, k);
      }
      OwnLineIsRead(b, NextLine(b, i), k);
    }
  }

  lemma {:induction false} ReadLineIsOwn(b: seq<Line>, i: nat, k: nat, j: nat)
    requires AllRead(b) && k < |b| && Reads(b, i, k) && i <= j && Under(Shapes(b), j, k)
    ensures !b[j].shape.Env() && !b[j].shape.Run()
    decreases k - i
  {
    hide WellRead, Named;
    var next := NextLine(b, i);
    if next <= j {
      ReadLineIsOwn(b, next, k, j);
    } else if b[j].shape.Env() || b[j].shape.Run() {
      ReadsForward(b, next, k);
      InnerKeySkips(b, i, k, j);
    }
  }

  lemma {:induction false} ReadsForward(b: seq<Line>, i: nat, k: nat)
    requires k < |b| && Reads(b, i, k)
    ensures i <= k
  {
  }

  /** The rewriter reads by itself exactly the lines that belong to no env mapping and no run key. */
  lemma {:induction false} ReadsExactlyOwn(b: seq<Line>, k: nat)
    requires AllRead(b) && k < |b|
    ensures Reads(b, 0, k) <==> !Enclosed(b, k)
  {
    if Reads(b, 0, k) {
      forall j: nat | Under(Shapes(b), j, k)
        ensures !b[j].shape.Env() && !b[j].shape.Run()
      {
        ReadLineIsOwn(b, 0, k, j);
      }
    } else if !Enclosed(b, k) {
      OwnLineIsRead(b, 0, k);
    }
  }

  /** An enclosed line belongs to a key that is not enclosed itself. */
  lemma {:induction false} OuterKey(b: seq<Line>, k: nat) returns (j: nat)
    requires Enclosed(b, k)
    ensures Under(Shapes(b), j, k) && (b[j].shape.Env() || b[j].shape.Run()) && !Enclosed(b, j)
    decreases k
  {
    j :| Under(Shapes(b), j, k) && (b[j].shape.Env() || b[j].shape.Run());
    if Enclosed(b, j) {
      var outer := OuterKey(b, j);
      forall y | outer < y <= k
        ensures Shapes(b)[y].Blank() || Shapes(b)[outer].indent < Shapes(b)[y].indent
      {
      }
      j := outer;
    }
  }

  // ---------------------------------------------------------------- what the rewriter writes

  /** The lines written for line `i` and the lines read with it. */
  function Piece(b: seq<Line>, step: nat, i: nat): seq<Line>
    requires i < |b|
  {
    if Named(b[i].text) then [Suffixed(b[i])]
    else if b[i].shape.Run() then [RunHeader(step + 2), RunnerLine(step + 4)]
    else b[i..NextLine(b, i)]
  }

  function Output(b: seq<Line>, step: nat, i: nat): seq<Line>
    requires i <= |b|
    decreases |b| - i
  {
    if i == |b| then [] else Piece(b, step, i) + Output(b, step, NextLine(b, i))
  }

  lemma {:induction false} DraftIsOutput(b: seq<Line>, step: nat, i: nat, d: Draft)
    requires i <= |b| && AllRead(b)
    ensures var r := Rewrite(b, step, i, d);
            && r.lines == d.lines + Output(b, step, i)
            && (r.named <==> d.named || exists k: nat | k < |b| :: Reads(b, i, k) && Named(b[k].text))
            && (r.hint.Some? <==> d.hint.Some? || exists k: nat | k < |b| :: Reads(b, i, k) && b[k].shape.Run())
    decreases |b| - i
  {
    hide WellRead, Named, Suffixed, RunHeader, RunnerLine;
    if i < |b| {
      if b[i].shape.Run() {
        KeyIsNoName(b[i]);
      }
      var n := NextDraft(b, step, i, d);
      DraftIsOutput(b, step, NextLine(b, i), n);
      assert b[i..i + 1] == [b[i]];
      assert n.lines == d.lines + Piece(b, step, i);
      assert forall k: nat | k < |b| && i < k :: Reads(b, i, k) <==> Reads(b, NextLine(b, i), k);
    } else {
      assert d.lines + Output(b, step, i) == d.lines;
    }
  }

  /** The draft has a name exactly if the step has one, and a place for the flag exactly if it has a run key. */
  lemma {:induction false} DraftExactly(b: seq<Line>, step: nat)
    requires AllRead(b)
    ensures var d := Rewrite(b, step, 0, BLANK);
            d.lines == Output(b, step, 0) && (d.named <==> HasName(b)) && (d.hint.Some? <==> HasRun(b))
  {
    hide WellRead, Named, Output, Rewrite, Enclosed;
    DraftIsOutput(b, step, 0, BLANK);
    assert [] + Output(b, step, 0) == Output(b, step, 0);
    forall k: nat | k < |b|
      ensures Reads(b, 0, k) <==> !Enclosed(b, k)
    {
      ReadsExactlyOwn(b, k);
    }
  }

  // ---------------------------------------------------------------- which pytest runs are written

  /** Leading is read off the lines up to `e` alike, if it is behind them. */
  lemma {:induction false} LeadsThrough(t: Text, i: nat, e: nat, u: Text, m: nat, depth: nat)
    requires i <= e <= |t| && m + (e - i) <= |u| && t[i..e] == u[m..m + (e - i)]
    requires Leads(t, e, depth) <==> Leads(u, m + (e - i), depth)
    ensures Leads(t, i, depth) <==> Leads(u, m, depth)
    decreases e - i
  {
    if i < e {
      assert t[i] == t[i..e][0] == u[m];
      assert t[i + 1..e] == t[i..e][1..] == u[m..m + (e - i)][1..] == u[m + 1..m + (e - i)];
      LeadsThrough(t, i + 1, e, u, m + 1, depth);
    }
  }

  lemma {:induction false} LeadsBehind(a: Text, u: Text, j: nat, depth: nat)
    requires j <= |u|
    ensures Leads(a + u, |a| + j, depth) <==> Leads(u, j, depth)
    decreases |u| - j
  {
    if j < |u| {
      LeadsBehind(a, u, j + 1, depth);
    }
  }

  lemma {:induction false} KeptPiece(b: seq<Line>, step: nat, i: nat)
    requires i < |b| && AllRead(b) && !b[i].shape.Run()
    ensures Shapes(Piece(b, step, i)) == Shapes(b)[i..NextLine(b, i)]
  {
    hide WellRead, Suffixed;
    if Named(b[i].text) {
      SuffixedKeepsShape(b[i]);
    }
  }

  lemma {:induction false} ShapesOfAppend(u: seq<Line>, v: seq<Line>)
    ensures Shapes(u + v) == Shapes(u) + Shapes(v)
  {
  }

  lemma {:induction false} OutputNext(b: seq<Line>, step: nat, i: nat)
    requires i < |b|
    ensures i < NextLine(b, i) && Output(b, step, i) == Piece(b, step, i) + Output(b, step, NextLine(b, i))
  {
    hide Piece;
  }

  lemma {:induction false} HeaderFirst(b: seq<Line>, step: nat, i: nat)
    requires i < |b| && AllRead(b) && b[i].shape.Run()
    ensures Piece(b, step, i) == [RunHeader(step + 2), RunnerLine(step + 4)]
    ensures Output(b, step, i) != [] && Shapes(Output(b, step, i))[0].Run()
  {
    hide WellRead, Named, Output;
    KeyIsNoName(b[i]);
    OutputNext(b, step, i);
    assert Output(b, step, i)[0] == RunHeader(step + 2);
  }

  lemma {:induction false} LeadsStops(t: Text, j: nat, depth: nat)
    requires j < |t| ==> t[j].Run()
    ensures !Leads(t, j, depth)
  {
  }

  /** What follows a key in the step follows it in the output, up to the next run key. */
  lemma {:induction false} OutputLeads(b: seq<Line>, step: nat, i: nat, depth: nat)
    requires i <= |b| && AllRead(b)
    ensures Leads(Shapes(Output(b, step, i)), 0, depth) <==> Leads(Shapes(b), i, depth)
    decreases |b| - i
  {
    hide *;
    if i == |b| {
      OutputAtEnd(b, step);
      LeadsStops(Shapes(b), i, depth);
      LeadsStops(Shapes(Output(b, step, i)), 0, depth);
    } else if b[i].shape.Run() {
      HeaderFirst(b, step, i);
      LeadsStops(Shapes(b), i, depth);
      LeadsStops(Shapes(Output(b, step, i)), 0, depth);
    } else {
      OutputNext(b, step, i);
      OutputLeads(b, step, NextLine(b, i), depth);
      KeptPiece(b, step, i);
      var piece, rest := Piece(b, step, i), Output(b, step, NextLine(b, i));
      ShapesOfAppend(piece, rest);
      LeadsBehind(Shapes(piece), Shapes(rest), 0, depth);
      assert Shapes(piece + rest)[0..|piece|] == Shapes(piece);
      LeadsThrough(Shapes(b), i, NextLine(b, i), Shapes(piece + rest), 0, depth);
    }
  }

  lemma {:induction false} HeaderLeads(t: Text, k: nat, x: nat, depth: nat)
    requires k <= x < |t| && t[x].pytest && forall y | k <= y <= x :: depth < t[y].indent && !t[y].Run()
    ensures Leads(t, k, depth)
    decreases x - k
  {
    if k < x {
      HeaderLeads(t, k + 1, x, depth);
    }
  }

  lemma {:induction false} LeadsTo(t: Text, k: nat, depth: nat) returns (x: nat)
    requires Leads(t, k, depth)
    ensures k <= x < |t| && t[x].pytest && forall y | k <= y <= x :: depth < t[y].indent && !t[y].Run()
    decreases |t| - k
  {
    x := k;
    if !t[k].pytest {
      x := LeadsTo(t, k + 1, depth);
    }
  }

  /** A written run key is hot exactly if what follows the runner leads to a pytest line. */
  lemma {:induction false} HeaderIsHot(u: Text, depth: nat)
    requires |u| >= 2 && u[0] == Shape(depth, RunKey, false) && u[1] == Shape(depth + 2, Other, false)
    ensures Hot(u, 0) <==> Leads(u, 2, depth)
  {
    if Hot(u, 0) {
      var x: nat :| InBody(u, 0, x) && u[x].pytest;
      HeaderLeads(u, 2, x, depth);
    }
    if Leads(u, 2, depth) {
      var x := LeadsTo(u, 2, depth);
      assert InBody(u, 0, x);
    }
  }

  lemma {:induction false} ColdBehind(a: Text, u: Text)
    ensures Cold(a + u) <==> Cold(u) && !exists r: nat :: r < |a| && Hot(a + u, r)
  {
    var v := a + u;
    assert v[|a|..] == u[0..];
    forall r: nat
      ensures Hot(v, |a| + r) <==> Hot(u, r)
    {
      if Hot(v, |a| + r) { SuffixHot(v, |a|, u, 0, r); }
      if Hot(u, r) { SuffixHot(u, 0, v, |a|, r); }
    }
    if Cold(u) && !exists r: nat :: r < |a| && Hot(v, r) {
      forall r: nat
        ensures !Hot(v, r)
      {
        if |a| <= r {
          var k: nat := r - |a|;
          assert Hot(v, |a| + k) <==> Hot(u, k);
        }
      }
    }
  }

  /** The line closes every body of a run key deeper than `indent`. */
  ghost predicate Closes(l: Shape, indent: nat) { l.Run() || l.indent <= indent }

  lemma {:induction false} HotWithin(t: Text, i: nat, e: nat, u: Text, r: nat, indent: nat)
    requires i <= r < e <= |t| && e - i <= |u| && t[i..e] == u[..e - i]
    requires e < |t| ==> Closes(t[e], indent)
    requires e - i < |u| ==> Closes(u[e - i], indent)
    requires indent < t[r].indent && Hot(t, r)
    ensures Hot(u, r - i)
  {
    assert forall y | i <= y < e :: t[y] == t[i..e][y - i] == u[y - i];
    var x: nat :| InBody(t, r, x) && t[x].pytest;
    assert x < e;
    assert InBody(u, r - i, x - i);
  }

  lemma {:induction false} UnderExactly(b: seq<Line>, i: nat, e: nat, r: nat)
    requires i < e <= |b| && (forall y | i < y < e :: Deeper(b[y], b[i].Indent()))
    requires e < |b| ==> !Deeper(b[e], b[i].Indent())
    ensures Under(Shapes(b), i, r) <==> i < r < e
  {
    if Under(Shapes(b), i, r) {
      forall y | i < y <= r
        ensures Deeper(b[y], b[i].Indent())
      {
        assert Shapes(b)[y] == b[y].shape;
      }
    }
  }

  lemma {:induction false} EnvStretch(b: seq<Line>, step: nat, i: nat)
    requires i < |b| && AllRead(b) && b[i].shape.Env()
    ensures var e, t, u := NextLine(b, i), Shapes(b), Shapes(Output(b, step, i));
            && i < e && e - i <= |u| && t[i..e] == u[..e - i]
            && (forall y | i < y < e :: Deeper(b[y], b[i].Indent()))
            && (e < |t| ==> Closes(t[e], b[i].Indent()) && !Deeper(b[e], b[i].Indent()))
            && (e - i < |u| ==> Closes(u[e - i], b[i].Indent()))
  {
    hide WellRead, Named, Output, Piece;
    KeyIsNoName(b[i]);
    var e, t, u := NextLine(b, i), Shapes(b), Shapes(Output(b, step, i));
    KeptPiece(b, step, i);
    OutputNext(b, step, i);
    ShapesOfAppend(Piece(b, step, i), Output(b, step, e));
    OutputStarts(b, step, e, b[i].Indent());
    assert e - i < |u| ==> u[e - i] == Shapes(Output(b, step, e))[0];
    if e == |b| { OutputAtEnd(b, step); }
  }

  lemma {:induction false} OutputAtEnd(b: seq<Line>, step: nat)
    ensures Output(b, step, |b|) == []
  {
  }

  /** The run keys of a stretch that is copied are hot exactly if they were. */
  lemma {:induction false} StretchHot(t: Text, i: nat, e: nat, u: Text, indent: nat)
    requires i < e <= |t| && e - i <= |u| && t[i..e] == u[..e - i] && !t[i].Run()
    requires forall y | i < y < e :: t[y].Blank() || indent < t[y].indent
    requires e < |t| ==> Closes(t[e], indent)
    requires e - i < |u| ==> Closes(u[e - i], indent)
    ensures (exists r: nat :: r < e - i && Hot(u, r)) <==> (exists r: nat :: i < r < e && Hot(t, r))
  {
    hide Hot, Closes;
    if r: nat :| i < r < e && Hot(t, r) {
      HotIsRun(t, r);
      HotWithin(t, i, e, u, r, indent);
      assert Hot(u, r - i);
    }
    if r: nat :| r < e - i && Hot(u, r) {
      HotIsRun(u, r);
      assert u[r] == u[..e - i][r] == t[i..e][r] == t[i + r];
      assert t[i..][..e - i] == u[0..e - i];
      HotWithin(u, 0, e - i, t[i..], r, indent);
      assert t[i..] == t[i..][0..];
      SuffixHot(t[i..], 0, t, i, r);
      assert Hot(t, i + r);
    }
  }

  /** A mapping is copied with the run keys in it: they are hot in the output exactly if they were. */
  lemma {:induction false} CopyIsHot(b: seq<Line>, step: nat, i: nat)
    requires i < |b| && AllRead(b) && b[i].shape.Env()
    ensures var u := Shapes(Output(b, step, i));
            (exists r: nat :: r < NextLine(b, i) - i && Hot(u, r)) <==> Leaves(b, step, i)
  {
    var e, t, u := NextLine(b, i), Shapes(b), Shapes(Output(b, step, i));
    EnvStretch(b, step, i);
    hide WellRead, Named, Hot, Output, NextLine, Piece, Closes, Leads;
    assert forall y | i < y < e :: t[y].Blank() || b[i].Indent() < t[y].indent;
    StretchHot(t, i, e, u, b[i].Indent());
    hide Shapes;
    forall r: nat
      ensures Under(t, i, r) <==> i < r < e
    {
      UnderExactly(b, i, e, r);
    }
  }

  lemma {:induction false} HotIsRun(t: Text, r: nat)
    requires Hot(t, r)
    ensures r < |t| && t[r].Run()
  {
  }

  lemma {:induction false} OutputStarts(b: seq<Line>, step: nat, e: nat, indent: nat)
    requires e <= |b| && AllRead(b) && (e < |b| ==> !Deeper(b[e], indent))
    ensures e < |b| ==> Output(b, step, e) != [] && Closes(Shapes(Output(b, step, e))[0], indent)
  {
    hide WellRead, Suffixed;
    if e < |b| {
      if Named(b[e].text) {
        SuffixedKeepsShape(b[e]);
      }
      assert Output(b, step, e)[0] == Piece(b, step, e)[0];
    }
  }

  lemma {:induction false} NothingIsHot(t: Text)
    requires t == []
    ensures Cold(t)
  {
  }

  /** A key that is no env key leaves its pytest run behind exactly if what was written for it is hot. */
  lemma {:induction false} RunCold(b: seq<Line>, step: nat, i: nat, rest: Text)
    requires i < |b| && AllRead(b) && b[i].shape.Run() && rest == Shapes(Output(b, step, NextLine(b, i)))
    ensures var u := Shapes(Piece(b, step, i)) + rest;
            |Piece(b, step, i)| == 2 && !Hot(u, 1) && (Hot(u, 0) <==> Leaves(b, step, i))
  {
    HeaderFirst(b, step, i);
    hide Hot, NextLine, Leads, Named, Output, Piece, WellRead;
    var u := Shapes(Piece(b, step, i)) + rest;
    HeaderIsHot(u, step + 2);
    LeadsBehind(Shapes(Piece(b, step, i)), rest, 0, step + 2);
    OutputLeads(b, step, NextLine(b, i), step + 2);
    if Hot(u, 1) { HotIsRun(u, 1); }
  }

  lemma {:induction false} LineCold(b: seq<Line>, step: nat, i: nat, rest: Text)
    requires i < |b| && AllRead(b) && !b[i].shape.Run() && !b[i].shape.Env()
    ensures |Piece(b, step, i)| == 1 && !Hot(Shapes(Piece(b, step, i)) + rest, 0) && !Leaves(b, step, i)
  {
    hide Hot, Leads, Named, WellRead, Suffixed;
    KeptPiece(b, step, i);
    OneLine(b, i);
    var u := Shapes(Piece(b, step, i)) + rest;
    if Hot(u, 0) { HotIsRun(u, 0); }
  }

  lemma {:induction false} PieceCold(b: seq<Line>, step: nat, i: nat)
    requires i < |b| && AllRead(b)
    ensures var u := Shapes(Piece(b, step, i)) + Shapes(Output(b, step, NextLine(b, i)));
            (exists r: nat :: r < |Piece(b, step, i)| && Hot(u, r)) <==> Leaves(b, step, i)
  {
    hide Hot, NextLine, Leads, Leaves, Output, Piece, AllRead;
    var rest := Output(b, step, NextLine(b, i));
    if b[i].shape.Env() {
      OutputNext(b, step, i);
      ShapesOfAppend(Piece(b, step, i), rest);
      KeptPiece(b, step, i);
      EnvStretch(b, step, i);
      assert |Piece(b, step, i)| == |Shapes(Piece(b, step, i))| == NextLine(b, i) - i;
      CopyIsHot(b, step, i);
    } else if b[i].shape.Run() {
      RunCold(b, step, i, Shapes(rest));
    } else {
      LineCold(b, step, i, Shapes(rest));
    }
  }

  lemma {:induction false} OneLine(b: seq<Line>, i: nat)
    requires i < |b| && !b[i].shape.Env() && !b[i].shape.Run()
    ensures NextLine(b, i) == i + 1
  {
    hide Named;
  }

  /** What is written from line `i` on runs pytest exactly if one of the keys read from there leaves a pytest run
      behind. */
  lemma {:induction false} OutputCold(b: seq<Line>, step: nat, i: nat)
    requires i <= |b| && AllRead(b)
    ensures Cold(Shapes(Output(b, step, i))) <==> forall k: nat | k < |b| && Reads(b, i, k) :: !Leaves(b, step, k)
    decreases |b| - i
  {
    hide WellRead, Named, Hot, NextLine, Leads, Leaves;
    if i < |b| {
      var next := NextLine(b, i);
      var piece, rest := Piece(b, step, i), Output(b, step, next);
      OutputCold(b, step, next);
      ShapesOfAppend(piece, rest);
      ColdBehind(Shapes(piece), Shapes(rest));
      PieceCold(b, step, i);
      hide Piece, Output, Cold;
      if forall k: nat | k < |b| && Reads(b, i, k) :: !Leaves(b, step, k) {
        assert forall k: nat | k < |b| && Reads(b, next, k) :: !Leaves(b, step, k) by {
          forall k: nat | k < |b| && Reads(b, next, k)
            ensures !Leaves(b, step, k)
          {
            ReadsForward(b, next, k);
            assert Reads(b, i, k);
          }
        }
        assert Reads(b, i, i);
      }
    } else {
      NothingIsHot(Shapes(Output(b, step, i)));
    }
  }

  // ---------------------------------------------------------------- the env flag

  lemma {:induction false} FlagLineHasFlag(n: nat)
    ensures HasText(EnvFlagLine(n).text, ENV_FLAG)
  {
    assert ENV_FLAG <= ENV_FLAG_LINE[0..];
  }

  lemma {:induction false} NewEnvFlags(u: seq<Line>, p: nat, step: nat)
    requires p <= |u|
    ensures EnvFlagged(InsertLines(u, p, [EnvLine(step + 2), EnvFlagLine(step + 4)]))
  {
    hide Read;
    var v := InsertLines(u, p, [EnvLine(step + 2), EnvFlagLine(step + 4)]);
    FlagLineHasFlag(step + 4);
    assert v[p] == EnvLine(step + 2) && v[p + 1] == EnvFlagLine(step + 4);
    assert Under(Shapes(v), p, p + 1);
  }

  lemma {:induction false} ExtendedEnvFlags(u: seq<Line>, e: nat, k: nat)
    requires e < k <= |u| && u[e].shape.Env() && forall y | e < y < k :: Deeper(u[y], u[e].Indent())
    ensures EnvFlagged(InsertLines(u, k, [EnvFlagLine(u[e].Indent() + 2)]))
  {
    hide Read;
    var v := InsertLines(u, k, [EnvFlagLine(u[e].Indent() + 2)]);
    FlagLineHasFlag(u[e].Indent() + 2);
    assert v[k] == EnvFlagLine(u[e].Indent() + 2);
    assert forall y | e <= y < k :: v[y] == u[y];
    assert Under(Shapes(v), e, k);
  }

  lemma {:induction false} WithEnvFlags(u: seq<Line>, step: nat, hint: Option<nat>)
    ensures EnvFlagged(WithEnv(u, step, hint))
  {
    var e := FirstEnv(u, 0);
    if e == |u| {
      NewEnvFlags(u, if hint.Some? && hint.value <= |u| then hint.value else |u|, step);
    } else {
      var k := FlagSpot(u, e + 1, u[e].Indent());
      if SetsFlag(u, k, u[e].Indent()) {
        assert Under(Shapes(u), e, k);
      } else {
        ExtendedEnvFlags(u, e, k);
      }
    }
  }

  /** Lines that may stand inside a step at `step`. */
  ghost predicate StepLines(ls: seq<Line>, step: nat) {
    forall k | 0 <= k < |ls| :: Written(ls[k]) && ls[k].shape.Quiet() && step <= ls[k].Indent()
  }

  lemma {:induction false} EnvLinesFit(step: nat)
    ensures StepLines([EnvLine(step + 2), EnvFlagLine(step + 4)], step)
  {
    hide Read;
  }

  lemma {:induction false} FlagLineFits(n: nat, step: nat)
    requires step <= n
    ensures StepLines([EnvFlagLine(n)], step)
  {
    hide Read;
  }

  lemma {:induction false} NewMappingInserts(u: seq<Line>, step: nat, hint: Option<nat>)
    requires FirstEnv(u, 0) == |u| && (hint.Some? ==> hint.value <= |u|)
    ensures WithEnv(u, step, hint)
            == InsertLines(u, if hint.Some? then hint.value else |u|, [EnvLine(step + 2), EnvFlagLine(step + 4)])
  {
    hide EnvLine, EnvFlagLine, FirstEnv;
  }

  lemma {:induction false} MappingInserts(u: seq<Line>, step: nat, hint: Option<nat>) returns (p: nat, ls: seq<Line>)
    requires FirstEnv(u, 0) < |u| && step <= u[FirstEnv(u, 0)].Indent()
    ensures p <= |u| && WithEnv(u, step, hint) == InsertLines(u, p, ls) && |ls| <= 2 && StepLines(ls, step)
    ensures BehindMapping(u, FirstEnv(u, 0), p, ls)
  {
    hide FirstEnv, FlagSpot, StepLines, EnvFlagLine, HasText, SetsFlag, WellRead;
    var e := FirstEnv(u, 0);
    var n := u[e].Indent();
    p := FlagSpot(u, e + 1, n);
    ls := if SetsFlag(u, p, n) then [] else [EnvFlagLine(n + 2)];
    FlagSpotStops(u, e + 1, n);
    FlagLineFits(n + 2, step);
    NoStepLines(step);
    assert ls == [] ==> InsertLines(u, p, ls) == u;
  }

  /** What `WithEnv` inserts, and where. */
  lemma {:induction false} WithEnvInserts(u: seq<Line>, step: nat, hint: Option<nat>) returns (p: nat, ls: seq<Line>)
    requires StepShaped(Shapes(u), step) && (hint.Some? ==> 0 < hint.value <= |u|)
    ensures 0 < p <= |u| && WithEnv(u, step, hint) == InsertLines(u, p, ls) && |ls| <= 2 && StepLines(ls, step)
    ensures FirstEnv(u, 0) == |u| ==> p == if hint.Some? then hint.value else |u|
    ensures var e := FirstEnv(u, 0); e < |u| ==> BehindMapping(u, e, p, ls)
  {
    hide WithEnv, StepLines, EnvLine, EnvFlagLine, InsertLines, Deeper;
    var e := FirstEnv(u, 0);
    if e == |u| {
      p, ls := if hint.Some? then hint.value else |u|, [EnvLine(step + 2), EnvFlagLine(step + 4)];
      EnvLinesFit(step);
      NewMappingInserts(u, step, hint);
    } else {
      assert Shapes(u)[e] == u[e].shape;
      p, ls := MappingInserts(u, step, hint);
    }
  }

  lemma {:induction false} NoStepLines(step: nat)
    ensures StepLines([], step)
  {
  }

  /** `ls` is nothing, or the flag at the end of the mapping opened at `e`. */
  ghost predicate BehindMapping(u: seq<Line>, e: nat, p: nat, ls: seq<Line>)
    requires e < |u|
  {
    && e < p <= |u| && (forall y | e < y < p :: Deeper(u[y], u[e].Indent()))
    && (ls == [] || (ls == [EnvFlagLine(u[e].Indent() + 2)] && (p < |u| ==> u[p].Indent() <= u[e].Indent())))
  }

  lemma {:induction false} InsertedShapes(u: seq<Line>, p: nat, ls: seq<Line>)
    requires p <= |u| && forall k | 0 <= k < |ls| :: ls[k].shape.Quiet()
    ensures Inserted(Shapes(u), p, |ls|, Shapes(InsertLines(u, p, ls)))
  {
  }

  lemma {:induction false} InsertKeepsCold(u: seq<Line>, p: nat, ls: seq<Line>)
    requires p <= |u| && Cold(Shapes(u)) && forall k | 0 <= k < |ls| :: ls[k].shape.Quiet()
    ensures Cold(Shapes(InsertLines(u, p, ls)))
  {
    var v := InsertLines(u, p, ls);
    InsertedShapes(u, p, ls);
    forall r: nat
      ensures !Hot(Shapes(v), r)
    {
      if Hot(Shapes(v), r) { InsertKeepsHot(Shapes(u), p, |ls|, Shapes(v), r); }
    }
  }

  /** Line `p` ends every body that reaches it from before, or the lines inserted there are as deep as the body. */
  ghost predicate InsertFits(t: Text, p: nat, n: nat, u: Text)
    requires Inserted(t, p, n, u)
  {
    forall r: nat, x: nat | r < p <= x && t[r].Run() && InBody(t, r, x) ::
      forall k | p <= k < p + n :: t[r].indent < u[k].indent
  }

  /** Lines inserted where they fit break no body: what was hot stays hot. */
  lemma {:induction false} InsertKeepsHeat(t: Text, p: nat, n: nat, u: Text)
    requires Inserted(t, p, n, u) && InsertFits(t, p, n, u) && Cold(u)
    ensures Cold(t)
  {
    forall r: nat
      ensures !Hot(t, r)
    {
      if Hot(t, r) {
        var x: nat :| InBody(t, r, x) && t[x].pytest;
        var r1, x1 := Shifted(r, p, n), Shifted(x, p, n);
        assert u[r1] == t[r] && u[x1] == t[x];
        forall y | r1 < y <= x1
          ensures !u[y].Run() && u[r1].indent < u[y].indent
        {
          if y < p {
            assert u[y] == t[y];
          } else if p + n <= y {
            assert u[y] == t[y - n];
          } else {
            assert r < p <= x;
          }
        }
        assert InBody(u, r1, x1);
        assert Hot(u, r1);
      }
    }
  }

  /** Where the flag is put, in a step whose hint is a run key, it fits. */
  lemma {:induction false} FlagFits(u: seq<Line>, step: nat, hint: Option<nat>, p: nat, ls: seq<Line>)
    requires 0 < p <= |u| && StepLines(ls, step)
    requires FirstEnv(u, 0) == |u| && hint.Some? ==> hint.value < |u| && u[hint.value].shape.Run()
    requires FirstEnv(u, 0) == |u| ==> p == if hint.Some? then hint.value else |u|
    requires var e := FirstEnv(u, 0); e < |u| ==> BehindMapping(u, e, p, ls)
    ensures Inserted(Shapes(u), p, |ls|, Shapes(InsertLines(u, p, ls)))
    ensures InsertFits(Shapes(u), p, |ls|, Shapes(InsertLines(u, p, ls)))
  {
    LinesAreQuiet(ls, step);
    InsertedShapes(u, p, ls);
    hide StepLines;
    var e := FirstEnv(u, 0);
    if e < |u| {
      MappingFits(u, e, p, ls);
    }
  }

  lemma {:induction false} FlagSpotStops(u: seq<Line>, i: nat, indent: nat)
    requires i <= |u|
    ensures var k := FlagSpot(u, i, indent); k < |u| ==> SetsFlag(u, k, indent) || u[k].Indent() <= indent
    decreases |u| - i
  {
    if i < |u| {
      FlagSpotStops(u, i + 1, indent);
    }
  }

  lemma {:induction false} MappingFits(u: seq<Line>, e: nat, p: nat, ls: seq<Line>)
    requires e < |u| && u[e].shape.Env() && BehindMapping(u, e, p, ls)
    requires Inserted(Shapes(u), p, |ls|, Shapes(InsertLines(u, p, ls)))
    ensures InsertFits(Shapes(u), p, |ls|, Shapes(InsertLines(u, p, ls)))
  {
    hide Read;
    var t, v := Shapes(u), Shapes(InsertLines(u, p, ls));
    forall r: nat, x: nat | r < p <= x && t[r].Run() && InBody(t, r, x)
      ensures forall k | p <= k < p + |ls| :: t[r].indent < v[k].indent
    {
      if ls != [] {
        assert v[p] == ls[0].shape;
        assert e < r ==> Deeper(u[r], u[e].Indent());
        assert r < e ==> t[r].indent < t[e].indent;
      }
    }
  }

  // ---------------------------------------------------------------- where the flag cuts a body

  lemma {:induction false} ExtentInPrefix(b: seq<Line>, j: nat, i: nat, indent: nat)
    requires i <= j <= |b| && ExtentEnd(b, i, indent) <= j
    ensures ExtentEnd(b[..j], i, indent) == ExtentEnd(b, i, indent)
    decreases j - i
  {
    if i < j && Deeper(b[i], indent) {
      ExtentInPrefix(b, j, i + 1, indent);
    }
  }

  lemma {:induction false} NextInPrefix(b: seq<Line>, j: nat, i: nat)
    requires i < j <= |b| && NextLine(b, i) <= j
    ensures NextLine(b[..j], i) == NextLine(b, i)
  {
    hide Named, Deeper;
    if b[i].shape.Env() || b[i].shape.Run() {
      if !Named(b[i].text) { ExtentInPrefix(b, j, i + 1, b[i].Indent()); }
    }
  }

  lemma {:induction false} PieceInPrefix(b: seq<Line>, step: nat, j: nat, i: nat)
    requires i < j <= |b| && NextLine(b, i) <= j
    ensures Piece(b[..j], step, i) == Piece(b, step, i)
  {
    hide Named, NextLine, Suffixed, RunHeader, RunnerLine;
    NextInPrefix(b, j, i);
    assert b[..j][i..NextLine(b, i)] == b[i..NextLine(b, i)];
  }

  /** What is written for the lines before line `j`, which is read by itself, does not depend on those behind. */
  lemma {:induction false} PrefixOutput(b: seq<Line>, step: nat, i: nat, j: nat)
    requires j < |b| && Reads(b, i, j)
    ensures i <= j && Output(b, step, i) == Output(b[..j], step, i) + Output(b, step, j)
    decreases j - i
  {
    hide NextLine, Piece;
    if i < j {
      var next := NextLine(b, i);
      PrefixOutput(b, step, next, j);
      NextInPrefix(b, j, i);
      PieceInPrefix(b, step, j, i);
    }
  }

  lemma {:induction false} PrefixReads(b: seq<Line>, i: nat, j: nat, k: nat)
    requires j < |b| && Reads(b, i, j) && k < j
    ensures Reads(b[..j], i, k) <==> Reads(b, i, k)
    decreases k - i
  {
    hide NextLine;
    if i < k {
      ReadsForward(b, NextLine(b, i), j);
      NextInPrefix(b, j, i);
      PrefixReads(b, NextLine(b, i), j, k);
    }
  }

  lemma {:induction false} ReadBefore(b: seq<Line>, i: nat, l: nat) returns (j: nat)
    requires i < l < |b| && Reads(b, i, l)
    ensures i <= j < l && Reads(b, i, j) && NextLine(b, j) == l
    decreases l - i
  {
    hide NextLine;
    j := i;
    if NextLine(b, i) != l {
      ReadsForward(b, NextLine(b, i), l);
      j := ReadBefore(b, NextLine(b, i), l);
    }
  }

  lemma {:induction false} LastRun(b: seq<Line>, n: nat) returns (l: nat)
    requires HasRun(b) && n <= |b| && forall k: nat | n <= k < |b| && !Enclosed(b, k) :: !b[k].shape.Run()
    ensures IsLastRun(b, l)
    decreases n
  {
    hide Enclosed;
    assert n > 0 by {
      var k: nat :| k < |b| && !Enclosed(b, k) && b[k].shape.Run();
    }
    if !Enclosed(b, n - 1) && b[n - 1].shape.Run() {
      l := n - 1;
    } else {
      l := LastRun(b, n - 1);
    }
  }

  /** Without a name, without an env mapping and with a run key, the flag is put before a line. */
  lemma {:induction false} FlagIsBefore(b: seq<Line>, step: nat) returns (j: nat)
    requires IsBlockLines(Shapes(b), step) && AllRead(b) && !HasName(b) && !HasEnv(b) && HasRun(b)
    ensures FlagBefore(b, j)
  {
    hide WellRead, Enclosed, HasName, HasEnv, HasRun, NextLine;
    var l := LastRun(b, |b|);
    assert Shapes(b)[0] == b[0].shape;
    ReadsExactlyOwn(b, l);
    j := ReadBefore(b, 0, l);
    ReadsExactlyOwn(b, j);
  }

  lemma {:induction false} OneLastRun(b: seq<Line>, l: nat, m: nat)
    requires IsLastRun(b, l) && IsLastRun(b, m)
    ensures l == m
  {
    hide Enclosed;
  }

  /** There is only one such line. */
  lemma {:induction false} FlagPlaceIsOne(b: seq<Line>, j: nat, m: nat)
    requires FlagBefore(b, j) && FlagBefore(b, m)
    ensures j == m
  {
    hide Enclosed, HasName, HasEnv, IsLastRun, NextLine;
    OneLastRun(b, NextLine(b, j), NextLine(b, m));
    NextLineBounds(b, j);
    NextLineBounds(b, m);
    if j < m { SkippedIsEnclosed(b, j, m); }
    if m < j { SkippedIsEnclosed(b, m, j); }
  }

  lemma {:induction false} NextLineBounds(b: seq<Line>, i: nat)
    requires i < |b|
    ensures i < NextLine(b, i) <= |b|
  {
  }

  lemma {:induction false} HintStays(b: seq<Line>, step: nat, i: nat, d: Draft)
    requires i <= |b| && AllRead(b) && forall k: nat | k < |b| && Reads(b, i, k) :: !b[k].shape.Run()
    ensures Rewrite(b, step, i, d).hint == d.hint
    decreases |b| - i
  {
    hide WellRead, Named, NextLine, Suffixed;
    if i < |b| {
      assert Reads(b, i, i);
      assert forall k: nat | k < |b| && Reads(b, NextLine(b, i), k) :: Reads(b, i, k) by {
        forall k: nat | k < |b| && Reads(b, NextLine(b, i), k)
          ensures Reads(b, i, k)
        {
          ReadsForward(b, NextLine(b, i), k);
        }
      }
      HintStays(b, step, NextLine(b, i), NextDraft(b, step, i, d));
    }
  }

  lemma {:induction false} NextDraftLines(b: seq<Line>, step: nat, i: nat, d: Draft)
    requires i < |b| && AllRead(b)
    ensures NextDraft(b, step, i, d).lines == d.lines + Piece(b, step, i)
  {
    hide WellRead, Named, NextLine, Suffixed, RunHeader, RunnerLine;
    if b[i].shape.Env() { KeyIsNoName(b[i]); }
    OneLineCopied(b, i);
  }

  lemma {:induction false} OneLineCopied(b: seq<Line>, i: nat)
    requires i < |b|
    ensures !b[i].shape.Env() && !b[i].shape.Run() ==> b[i..NextLine(b, i)] == [b[i]]
  {
    hide Named;
  }

  /** The place kept for the flag is that of the last run key in the draft. */
  lemma {:induction false} HintIsLastRun(b: seq<Line>, step: nat, i: nat, l: nat, d: Draft)
    requires AllRead(b) && l < |b| && Reads(b, i, l) && b[l].shape.Run()
    requires forall k: nat | l < k < |b| && Reads(b, l, k) :: !b[k].shape.Run()
    ensures i <= l && Rewrite(b, step, i, d).hint == Some(|d.lines| + |Output(b[..l], step, i)|)
    decreases l - i
  {
    hide WellRead, Named, NextLine, Piece, Suffixed, NextDraft;
    ReadsForward(b, i, l);
    RewriteNext(b, step, i, d);
    var n := NextDraft(b, step, i, d);
    if i < l {
      ReadsForward(b, NextLine(b, i), l);
      HintIsLastRun(b, step, NextLine(b, i), l, n);
      NextDraftLines(b, step, i, d);
      NextInPrefix(b, l, i);
      PieceInPrefix(b, step, l, i);
    } else {
      KeyIsNoName(b[l]);
      LastHint(b, step, l, d);
      forall k: nat | k < |b| && Reads(b, NextLine(b, l), k)
        ensures !b[k].shape.Run()
      {
        ReadsForward(b, NextLine(b, l), k);
        NextLineBounds(b, l);
        assert Reads(b, l, k);
      }
      HintStays(b, step, NextLine(b, l), n);
    }
  }

  lemma {:induction false} LastHint(b: seq<Line>, step: nat, l: nat, d: Draft)
    requires l < |b| && b[l].shape.Run() && !Named(b[l].text)
    ensures NextDraft(b, step, l, d).hint == Some(|d.lines|) && Output(b[..l], step, l) == []
  {
    hide Named;
  }

  // ---------------------------------------------------------------- the env mappings and run keys of the draft

  lemma {:induction false} PieceEnv(b: seq<Line>, step: nat, i: nat)
    requires i < |b| && AllRead(b)
    ensures (exists k: nat :: k < |Piece(b, step, i)| && Piece(b, step, i)[k].shape.Env()) <==> b[i].shape.Env()
    ensures !b[i].shape.Env() ==>
              forall k: nat | k < |Piece(b, step, i)| && Piece(b, step, i)[k].shape.Run() ::
                  Piece(b, step, i)[k].Indent() == step + 2
  {
    hide WellRead, Suffixed;
    if Named(b[i].text) {
      SuffixedKeepsShape(b[i]);
    } else if b[i].shape.Env() {
      assert Piece(b, step, i)[0] == b[i];
    }
  }

  lemma {:induction false} OutputEnv(b: seq<Line>, step: nat, i: nat)
    requires i <= |b| && AllRead(b)
    ensures var u := Output(b, step, i);
            && ((exists k: nat :: k < |u| && u[k].shape.Env())
                <==> exists k: nat :: k < |b| && Reads(b, i, k) && b[k].shape.Env())
            && ((forall k: nat | k < |b| && Reads(b, i, k) :: !b[k].shape.Env()) ==>
                  forall k: nat | k < |u| && u[k].shape.Run() :: u[k].Indent() == step + 2)
    decreases |b| - i
  {
    hide WellRead, NextLine, Piece;
    if i < |b| {
      var next := NextLine(b, i);
      var piece, rest := Piece(b, step, i), Output(b, step, next);
      OutputEnv(b, step, next);
      PieceEnv(b, step, i);
      assert forall k: nat | k < |b| && i < k :: Reads(b, i, k) <==> Reads(b, next, k);
      forall k: nat | k < |b| && Reads(b, next, k)
        ensures i < k
      {
        ReadsForward(b, next, k);
        NextLineBounds(b, i);
      }
      var u := Output(b, step, i);
      assert u == piece + rest;
      assert Reads(b, i, i);
      assert forall k: nat | k < |piece| :: u[k] == piece[k];
      assert forall k: nat | k < |rest| :: u[|piece| + k] == rest[k];
      assert forall k: nat | |piece| <= k < |u| :: u[k] == rest[k - |piece|];
    }
  }

  lemma {:induction false} FirstEnvExactly(u: seq<Line>, i: nat)
    requires i <= |u|
    ensures FirstEnv(u, i) < |u| <==> exists k: nat :: i <= k < |u| && u[k].shape.Env()
    decreases |u| - i
  {
    if i < |u| && !u[i].shape.Env() {
      FirstEnvExactly(u, i + 1);
    }
  }

  /** The draft has an env mapping exactly if the step has one; otherwise all its run keys were written. */
  lemma {:induction false} DraftEnv(b: seq<Line>, step: nat)
    requires AllRead(b)
    ensures var u := Output(b, step, 0);
            && ((exists k: nat :: k < |u| && u[k].shape.Env()) <==> HasEnv(b))
            && (!HasEnv(b) ==> forall k: nat | k < |u| && u[k].shape.Run() :: u[k].Indent() == step + 2)
  {
    hide WellRead, Enclosed, Output;
    OutputEnv(b, step, 0);
    forall k: nat | k < |b|
      ensures Reads(b, 0, k) <==> !Enclosed(b, k)
    {
      ReadsExactlyOwn(b, k);
    }
  }

  lemma {:induction false} NamedDraftEnv(b: seq<Line>, step: nat)
    requires AllRead(b)
    ensures FirstEnv(NamedDraft(b, step), 0) < |NamedDraft(b, step)| <==> HasEnv(b)
  {
    hide WellRead, Output, Rewrite, HasEnv, Read, HasName, HasRun, FirstEnv;
    DraftExactly(b, step);
    DraftEnv(b, step);
    var u, o := NamedDraft(b, step), Output(b, step, 0);
    FirstEnvExactly(u, 0);
    var name := NameLine(step, NEW_NAME);
    assert !name.shape.Env() by { NameLineIsDash(step, NEW_NAME); }
    if u != o {
      assert u == [name] + o;
      assert forall k: nat | k < |o| :: u[k + 1] == o[k];
      assert forall k: nat | 0 < k < |u| :: u[k] == o[k - 1];
    }
  }

  lemma {:induction false} NameLineIsDash(step: nat, name: string)
    ensures var l := NameLine(step, name); l.shape.Dash() && !l.shape.Run() && !l.shape.Env()
  {
  }

  // ---------------------------------------------------------------- a cut body

  /** Where a line closes every body, a text runs pytest exactly if one of its parts does. */
  lemma {:induction false} ColdParts(a: Text, u: Text)
    requires u == [] || forall k | 0 <= k < |a| && a[k].Run() :: Closes(u[0], a[k].indent)
    ensures Cold(a + u) <==> Cold(a) && Cold(u)
  {
    hide Cold;
    ColdBehind(a, u);
    var t := a + u;
    assert forall y | 0 <= y < |a| :: t[y] == a[y];
    forall r: nat | r < |a|
      ensures Hot(t, r) <==> Hot(a, r)
    {
      if Hot(t, r) {
        var x: nat :| InBody(t, r, x) && t[x].pytest;
        assert u != [] ==> t[|a|] == u[0];
        assert x < |a|;
        assert InBody(a, r, x);
      }
      if Hot(a, r) {
        var x: nat :| InBody(a, r, x) && a[x].pytest;
        assert InBody(t, r, x);
      }
    }
    ColdForm(a);
  }

  lemma {:induction false} ColdForm(t: Text)
    ensures Cold(t) <==> forall r: nat | r < |t| :: !Hot(t, r)
  {
    forall r: nat | |t| <= r
      ensures !Hot(t, r)
    {
    }
  }

  lemma {:induction false} NoKeysCold(x: Text, u: Text)
    requires forall k | 0 <= k < |x| :: !x[k].Run()
    ensures Cold(x + u) <==> Cold(u)
    decreases |x|
  {
    hide Cold;
    if x == [] {
      assert x + u == u;
    } else {
      assert x + u == [x[0]] + (x[1..] + u);
      PrependKeepsCold(x[0], x[1..] + u);
      NoKeysCold(x[1..], u);
    }
  }

  /** Quiet lines with an env key put in front of a line that is no key split the text in two. */
  lemma {:induction false} SplitCold(name: Shape, a: Text, w: Text, x: Text, mid: Shape, u: Text)
    requires !name.Run() && !mid.Run() && x != [] && forall k | 0 <= k < |x| :: !x[k].Run()
    requires forall k | 0 <= k < |a| && a[k].Run() :: x[0].indent <= a[k].indent
    requires w == [] || (|w| == 1 && w[0].Run() && !w[0].pytest && x[0].indent <= w[0].indent)
    ensures Cold(([name] + a + w) + (x + [mid] + u)) <==> Cold(a) && Cold(u)
  {
    hide Cold;
    var left, right := [name] + a + w, x + [mid] + u;
    assert right[0] == x[0];
    forall k | 0 <= k < |left| && left[k].Run()
      ensures Closes(right[0], left[k].indent)
    {
      if 0 < k <= |a| { assert left[k] == a[k - 1]; }
      if |a| < k { assert left[k] == w[k - 1 - |a|]; }
    }
    ColdParts(left, right);
    NoKeysCold(x + [mid], u);
    assert left == [name] + (a + w);
    PrependKeepsCold(name, a + w);
    ColdParts(a, w);
    HeaderAlone(w);
  }

  lemma {:induction false} HeaderAlone(w: Text)
    requires |w| <= 1 && forall k | 0 <= k < |w| :: !w[k].pytest
    ensures Cold(w)
  {
  }

  /** The lines written for line `j` but the last, and the last. */
  lemma {:induction false} LastOfPiece(b: seq<Line>, step: nat, j: nat) returns (w: seq<Line>, mid: Line)
    requires j < |b| && AllRead(b) && !b[j].shape.Env()
    ensures Piece(b, step, j) == w + [mid] && !mid.shape.Run()
    ensures w == [] || w == [RunHeader(step + 2)]
  {
    hide WellRead, Named, Suffixed;
    if b[j].shape.Run() {
      KeyIsNoName(b[j]);
      w, mid := [RunHeader(step + 2)], RunnerLine(step + 4);
      RunnerIsNoKey(step + 4);
    } else {
      KeptPiece(b, step, j);
      OneLine(b, j);
      w, mid := [], Piece(b, step, j)[0];
      assert Shapes(Piece(b, step, j))[0] == b[j].shape;
    }
  }

  lemma {:induction false} RunnerIsNoKey(n: nat)
    ensures !RunnerLine(n).shape.Run()
  {
  }

  lemma {:induction false} KeyLines(step: nat)
    ensures var h, e, f := RunHeader(step + 2).shape, EnvLine(step + 2).shape, EnvFlagLine(step + 4).shape;
            && h.Run() && !h.pytest && h.indent == e.indent == step + 2 && !e.Run() && !f.Run()
  {
  }

  lemma {:induction false} ReadsChain(b: seq<Line>, i: nat, l: nat, k: nat)
    requires l < |b| && k < |b| && Reads(b, i, l) && Reads(b, l, k)
    ensures Reads(b, i, k)
    decreases l - i
  {
    hide NextLine;
    if i < l {
      ReadsForward(b, l, k);
      ReadsChain(b, NextLine(b, i), l, k);
    }
  }

  function EnvLines(step: nat): seq<Line> { [EnvLine(step + 2), EnvFlagLine(step + 4)] }

  lemma {:induction false} CutHint(b: seq<Line>, step: nat, j: nat)
    requires AllRead(b) && FlagBefore(b, j)
    ensures NextLine(b, j) < |b|
    ensures NamedDraft(b, step) == [NameLine(step, NEW_NAME)] + Output(b, step, 0)
    ensures Output(b, step, 0) == Output(b[..j], step, 0) + Piece(b, step, j) + Output(b, step, NextLine(b, j))
    ensures Rewrite(b, step, 0, BLANK).hint == Some(|Output(b[..j], step, 0)| + |Piece(b, step, j)|)
  {
    hide WellRead, Enclosed, Output, Piece, Rewrite, NextLine, HasEnv, HasName, HasRun, NameLine, Leads;
    var l := NextLine(b, j);
    ReadsExactlyOwn(b, j);
    ReadsExactlyOwn(b, l);
    DraftExactly(b, step);
    PrefixOutput(b, step, 0, j);
    PrefixOutput(b, step, 0, l);
    OutputNext(b, step, j);
    forall k: nat | l < k < |b| && Reads(b, l, k)
      ensures !b[k].shape.Run()
    {
      ReadsChain(b, 0, l, k);
      ReadsExactlyOwn(b, k);
    }
    HintIsLastRun(b, step, 0, l, BLANK);
  }

  /** A step that is rewritten with the flag before line `j`. */
  lemma {:induction false} CutLines(b: seq<Line>, step: nat, j: nat) returns (w: seq<Line>, mid: Line)
    requires AllRead(b) && FlagBefore(b, j)
    ensures !mid.shape.Run() && (w == [] || w == [RunHeader(step + 2)]) && NextLine(b, j) < |b|
    ensures RewriteLines(b, step)
            == ([NameLine(step, NEW_NAME)] + Output(b[..j], step, 0) + w)
               + (EnvLines(step) + [mid] + Output(b, step, NextLine(b, j)))
  {
    hide WellRead, Output, Piece, Rewrite, NextLine, HasName, HasRun, NameLine, NamedDraft, FirstEnv, Read, IsLastRun;
    hide RewriteLines;
    CutHint(b, step, j);
    w, mid := LastOfPiece(b, step, j);
    NamedDraftEnv(b, step);
    RewritesByEnv(b, step);
    var u := NamedDraft(b, step);
    var left, rest := [NameLine(step, NEW_NAME)] + Output(b[..j], step, 0) + w, Output(b, step, NextLine(b, j));
    var hint := Rewrite(b, step, 0, BLANK).hint;
    assert u == left + ([mid] + rest);
    assert hint == Some(|left|);
    NewMappingInserts(u, step, hint);
    InsertedAt(left, [mid] + rest, EnvLines(step));
    assert EnvLines(step) + ([mid] + rest) == EnvLines(step) + [mid] + rest;
  }

  lemma {:induction false} InsertedAt(left: seq<Line>, rest: seq<Line>, ls: seq<Line>)
    ensures InsertLines(left + rest, |left|, ls) == left + (ls + rest)
  {
  }

  /** The flag before line `j` splits the rewritten step. */
  lemma {:induction false} CutSplits(b: seq<Line>, step: nat, j: nat)
    requires AllRead(b) && FlagBefore(b, j)
    ensures NextLine(b, j) < |b|
    ensures Cold(Shapes(RewriteLines(b, step)))
            <==> Cold(Shapes(Output(b[..j], step, 0))) && Cold(Shapes(Output(b, step, NextLine(b, j))))
  {
    hide WellRead, Output, Piece, NextLine, HasName, HasEnv, IsLastRun, RewriteLines, Cold, Enclosed;
    hide NameLine, EnvLine, EnvFlagLine, RunHeader, Hot;
    var w, mid := CutLines(b, step, j);
    var name, a, rest := NameLine(step, NEW_NAME), Output(b[..j], step, 0), Output(b, step, NextLine(b, j));
    ReadsExactlyOwn(b, j);
    PrefixOutput(b, step, 0, j);
    DraftEnv(b, step);
    forall k | 0 <= k < |a| && Shapes(a)[k].Run()
      ensures Shapes(a)[k].indent == step + 2
    {
      assert Output(b, step, 0)[k] == a[k];
    }
    KeyLines(step);
    var x := EnvLines(step);
    assert Shapes(x) == [EnvLine(step + 2).shape, EnvFlagLine(step + 4).shape];
    SplitCold(name.shape, Shapes(a), Shapes(w), Shapes(x), mid.shape, Shapes(rest));
    assert Shapes([name] + a + w) == [name.shape] + Shapes(a) + Shapes(w);
    assert Shapes(x + [mid] + rest) == Shapes(x) + [mid.shape] + Shapes(rest);
    ShapesOfAppend([name] + a + w, x + [mid] + rest);
  }

  lemma {:induction false} LeadsFurther(t: Text, j: nat, i: nat, depth: nat)
    requires j <= |t| && Leads(t[..j], i, depth)
    ensures Leads(t, i, depth)
    decreases j - i
  {
    assert t[..j][i] == t[i];
    if !t[i].pytest {
      LeadsFurther(t, j, i + 1, depth);
    }
  }

  lemma {:induction false} LeadsInside(t: Text, i: nat, depth: nat)
    requires Leads(t, i, depth)
    ensures i < |t|
  {
  }

  /** Key `k` before line `j` leaves a pytest run in front of that line. */
  lemma {:induction false} LeavesInPrefix(b: seq<Line>, step: nat, j: nat, k: nat)
    requires AllRead(b) && FlagBefore(b, j) && k < j && !Enclosed(b, k)
    ensures Leaves(b[..j], step, k) <==> b[k].shape.Run() && Leads(Shapes(b)[..j], NextLine(b, k), step + 2)
  {
    hide WellRead, Leads, NextLine, HasName, IsLastRun, Enclosed, Hot;
    if j < NextLine(b, k) { SkippedIsEnclosed(b, k, j); }
    NextInPrefix(b, j, k);
    assert Shapes(b[..j]) == Shapes(b)[..j];
    assert !b[k].shape.Env();
  }

  lemma {:induction false} ReadsInPrefix(b: seq<Line>, j: nat, k: nat)
    requires AllRead(b) && j < |b| && !Enclosed(b, j) && k < j
    ensures Reads(b[..j], 0, k) <==> !Enclosed(b, k)
  {
    hide WellRead, Enclosed;
    ReadsExactlyOwn(b, j);
    ReadsExactlyOwn(b, k);
    PrefixReads(b, 0, j, k);
  }

  lemma {:induction false} ReadsFromOwn(b: seq<Line>, l: nat, k: nat)
    requires AllRead(b) && l < |b| && !Enclosed(b, l) && k < |b|
    ensures Reads(b, l, k) <==> l <= k && !Enclosed(b, k)
  {
    hide WellRead, Enclosed, NextLine;
    ReadsExactlyOwn(b, l);
    ReadsExactlyOwn(b, k);
    if Reads(b, l, k) {
      ReadsForward(b, l, k);
      ReadsChain(b, 0, l, k);
    } else if l <= k && !Enclosed(b, k) {
      OwnLineIsRead(b, l, k);
    }
  }

  /** Key `k` stays hot behind the flag or before it. */
  ghost predicate HotAround(b: seq<Line>, step: nat, j: nat, k: nat)
    requires j < |b|
  {
    && k < |b| && !Enclosed(b, k)
    && (if k < j then Leaves(b[..j], step, k) else NextLine(b, j) <= k && Leaves(b, step, k))
  }

  lemma {:induction false} StaysHotAround(b: seq<Line>, step: nat, j: nat)
    requires AllRead(b) && FlagBefore(b, j)
    ensures StaysHot(b, step) <==> exists k: nat :: HotAround(b, step, j, k)
  {
    hide WellRead, Leads, NextLine, Enclosed, Hot, Leaves;
    if StaysHot(b, step) {
      var k: nat :| k < |b| && !Enclosed(b, k) && Leaves(b, step, k) && !CutOff(b, step, k);
      hide FlagBefore;
      NotEnv(b, step, j, k);
      if k <= j {
        LeadsInside(Shapes(b)[..j], NextLine(b, k), step + 2);
        NextLineBounds(b, k);
        LeavesInPrefix(b, step, j, k);
      } else if k < NextLine(b, j) {
        SkippedIsEnclosed(b, j, k);
      }
      assert HotAround(b, step, j, k);
    }
    if k: nat :| HotAround(b, step, j, k) {
      hide FlagBefore;
      AroundStays(b, step, j, k);
    }
  }

  lemma {:induction false} NotEnv(b: seq<Line>, step: nat, j: nat, k: nat)
    requires FlagBefore(b, j) && k < |b| && !Enclosed(b, k)
    ensures !b[k].shape.Env() && j < |b| && !Enclosed(b, j)
    ensures Leaves(b, step, k) <==> b[k].shape.Run() && Leads(Shapes(b), NextLine(b, k), step + 2)
  {
    hide Leads, NextLine, HasName, IsLastRun, Enclosed, Hot;
  }

  lemma {:induction false} AroundStays(b: seq<Line>, step: nat, j: nat, k: nat)
    requires AllRead(b) && FlagBefore(b, j) && HotAround(b, step, j, k)
    ensures StaysHot(b, step)
  {
    hide WellRead, Leads, NextLine, FlagBefore, Enclosed, Hot, Leaves;
    NotEnv(b, step, j, k);
    if k < j {
      LeavesInPrefix(b, step, j, k);
      LeadsFurther(Shapes(b), j, NextLine(b, k), step + 2);
    } else {
      NextLineBounds(b, j);
    }
    forall m: nat | FlagBefore(b, m)
      ensures m == j
    {
      FlagPlaceIsOne(b, j, m);
    }
    assert !CutOff(b, step, k);
  }

  /** With the flag before line `j`, the rewritten step runs pytest exactly if a key stays hot. */
  lemma {:induction false} CutIsCold(b: seq<Line>, step: nat, j: nat)
    requires AllRead(b) && FlagBefore(b, j)
    ensures Cold(Shapes(RewriteLines(b, step))) <==> !StaysHot(b, step)
  {
    hide WellRead, NextLine, Enclosed, Cold, Output, Leaves, StaysHot, RewriteLines, HasEnv, HasName, Hot;
    var l, c := NextLine(b, j), b[..j];
    CutSplits(b, step, j);
    StaysHotAround(b, step, j);
    OutputCold(c, step, 0);
    OutputCold(b, step, l);
    forall k: nat | k < j
      ensures Reads(c, 0, k) <==> !Enclosed(b, k)
    {
      ReadsInPrefix(b, j, k);
    }
    NextLineBounds(b, j);
    forall k: nat | k < |b|
      ensures Reads(b, l, k) <==> l <= k && !Enclosed(b, k)
    {
      ReadsFromOwn(b, l, k);
    }
    assert forall k: nat | k < j && !Enclosed(b, k) :: HotAround(b, step, j, k) <==> Leaves(c, step, k);
    assert forall k: nat | l <= k < |b| && !Enclosed(b, k) :: HotAround(b, step, j, k) <==> Leaves(b, step, k);
  }

  /** A name, an env mapping, or the lack of a run key leaves nothing to be cut. */
  lemma {:induction false} NothingCut(b: seq<Line>, step: nat)
    requires HasName(b) || HasEnv(b) || !HasRun(b)
    ensures StaysHot(b, step) <==> LeavesSome(b, step)
  {
    hide Enclosed, NextLine, Leaves;
    assert forall j: nat :: !FlagBefore(b, j);
  }

  // ---------------------------------------------------------------- a rewritten step

  lemma {:induction false} BlockIsShaped(t: Text, step: nat)
    requires IsBlockLines(t, step)
    ensures StepShaped(t, step)
  {
  }

  lemma {:induction false} PrependKeepsCold(l: Shape, u: Text)
    requires !l.Run()
    ensures Cold([l] + u) <==> Cold(u)
  {
    ColdBehind([l], u);
    if Hot([l] + u, 0) { HotIsRun([l] + u, 0); }
  }

  lemma {:induction false} PrependedName(l: Line, u: seq<Line>, step: nat)
    requires WellRead(l) && l.shape.Dash() && l.Indent() == step && IsBlockLines(Shapes(u), step) && AllRead(u)
    ensures StepShaped(Shapes([l] + u), step) && AllRead([l] + u) && !IsBlockLines(Shapes([l] + u), step)
  {
    assert Shapes([l] + u)[1] == Shapes(u)[0];
    assert forall k | 1 <= k < |u| + 1 :: ([l] + u)[k] == u[k - 1];
  }

  lemma {:induction false} NamedDraftSound(b: seq<Line>, step: nat)
    requires IsBlockLines(Shapes(b), step) && AllRead(b)
    ensures StepShaped(Shapes(NamedDraft(b, step)), step) && AllRead(NamedDraft(b, step))
    ensures IsBlockLines(Shapes(NamedDraft(b, step)), step) <==> HasName(b)
    ensures Cold(Shapes(NamedDraft(b, step))) <==> !LeavesSome(b, step)
  {
    hide WellRead, Rewrite, Output, Enclosed, Hot, Leaves, Leads, StepShaped, IsBlockLines, Cold, NameLine;
    var d := Rewrite(b, step, 0, BLANK);
    var name := NameLine(step, NEW_NAME);
    DraftIsBlock(b, step);
    DraftExactly(b, step);
    OutputCold(b, step, 0);
    BlockIsShaped(Shapes(d.lines), step);
    PrependedName(name, d.lines, step);
    PrependKeepsCold(name.shape, Shapes(d.lines));
    ShapesOfAppend([name], d.lines);
    assert Shapes([name]) == [name.shape];
    forall k: nat | k < |b|
      ensures Reads(b, 0, k) <==> !Enclosed(b, k)
    {
      ReadsExactlyOwn(b, k);
    }
  }

  lemma {:induction false} DraftIsBlock(b: seq<Line>, step: nat)
    requires IsBlockLines(Shapes(b), step) && AllRead(b)
    ensures var d := Rewrite(b, step, 0, BLANK);
            IsBlockLines(Shapes(d.lines), step) && AllRead(d.lines) && Shaped(d, step, |b|)
  {
    hide WellRead, Rewrite;
    RewriteIsShaped(b, step, 0, BLANK);
    RewriteIsRead(b, step, 0, BLANK);
  }

  /** The hint is inside the draft; in a step with a name it is a run key, with the runner behind it. */
  lemma {:induction false} HintIsInside(b: seq<Line>, step: nat)
    requires IsBlockLines(Shapes(b), step) && AllRead(b)
    ensures var hint, u := Rewrite(b, step, 0, BLANK).hint, NamedDraft(b, step);
            && (hint.Some? <==> HasRun(b))
            && (hint.Some? ==>
                 0 < hint.value < |u| && HasLine(u, RUNNER_COMMAND)
                 && (HasName(b) ==> u[hint.value].shape.Run()))
  {
    hide WellRead, Rewrite, Enclosed, Output, Read;
    var d := Rewrite(b, step, 0, BLANK);
    DraftIsBlock(b, step);
    DraftExactly(b, step);
    if d.hint.Some? {
      var k := d.hint.value + 1;
      assert NamedDraft(b, step)[if d.named then k else k + 1] == d.lines[k];
    }
  }

  ghost predicate HasLine(u: seq<Line>, text: string) { exists k | 0 <= k < |u| :: u[k].text == text }

  lemma {:induction false} InsertKeepsText(u: seq<Line>, p: nat, ls: seq<Line>, text: string)
    requires p <= |u| && HasLine(u, text)
    ensures HasLine(InsertLines(u, p, ls), text)
  {
    var m :| 0 <= m < |u| && u[m].text == text;
    assert InsertLines(u, p, ls)[if m < p then m else m + |ls|] == u[m];
  }

  lemma {:induction false} InsertKeepsStep(u: seq<Line>, p: nat, ls: seq<Line>, step: nat)
    requires 0 < p <= |u| && StepShaped(Shapes(u), step) && AllRead(u) && StepLines(ls, step)
    ensures var v := InsertLines(u, p, ls);
            StepShaped(Shapes(v), step) && AllRead(v)
                && (IsBlockLines(Shapes(v), step) <==> IsBlockLines(Shapes(u), step))
  {
    hide WellRead;
    var v := InsertLines(u, p, ls);
    assert Shapes(v)[0] == Shapes(u)[0];
    assert forall k | 0 <= k < p :: v[k] == u[k];
    assert forall k | p <= k < |u| :: v[k + |ls|] == u[k];
    assert forall k | p <= k < p + |ls| :: v[k] == ls[k - p];
    if IsBlockLines(Shapes(v), step) {
      forall k | 0 < k < |u|
        ensures !Shapes(u)[k].Ends(step)
      {
        assert Shapes(v)[if k < p then k else k + |ls|] == Shapes(u)[k];
      }
    }
  }

  /** A rewritten step sets the flag in an env mapping.  It is one step of the same depth exactly if it had a name of
      its own; otherwise the name that is put before it opens a step of its own. */
  lemma {:induction false} RewrittenIsStep(b: seq<Line>, step: nat)
    requires IsBlockLines(Shapes(b), step) && AllRead(b)
    ensures StepShaped(Shapes(RewriteLines(b, step)), step) && AllRead(RewriteLines(b, step))
    ensures EnvFlagged(RewriteLines(b, step))
    ensures IsBlockLines(Shapes(RewriteLines(b, step)), step) <==> HasName(b)
  {
    hide *;
    var u, hint := NamedDraft(b, step), Rewrite(b, step, 0, BLANK).hint;
    RewritesByEnv(b, step);
    NamedDraftSound(b, step);
    HintIsInside(b, step);
    WithEnvFlags(u, step, hint);
    var p, ls := WithEnvInserts(u, step, hint);
    InsertKeepsStep(u, p, ls, step);
  }

  lemma {:induction false} RewritesByEnv(b: seq<Line>, step: nat)
    ensures RewriteLines(b, step) == WithEnv(NamedDraft(b, step), step, Rewrite(b, step, 0, BLANK).hint)
  {
    hide WithEnv, NamedDraft, Rewrite;
  }

  /** A rewritten step runs pytest exactly if one of its keys leaves a pytest run behind that the flag does not cut
      off. */
  lemma {:induction false} RewrittenIsCold(b: seq<Line>, step: nat)
    requires IsBlockLines(Shapes(b), step) && AllRead(b)
    ensures Cold(Shapes(RewriteLines(b, step))) <==> !StaysHot(b, step)
  {
    hide *;
    if HasName(b) || HasEnv(b) || !HasRun(b) {
      NothingCut(b, step);
      UncutIsCold(b, step);
    } else {
      var j := FlagIsBefore(b, step);
      CutIsCold(b, step, j);
    }
  }

  lemma {:induction false} UncutIsCold(b: seq<Line>, step: nat)
    requires IsBlockLines(Shapes(b), step) && AllRead(b) && (HasName(b) || HasEnv(b) || !HasRun(b))
    ensures Cold(Shapes(RewriteLines(b, step))) <==> !LeavesSome(b, step)
  {
    hide *;
    var u, hint := NamedDraft(b, step), Rewrite(b, step, 0, BLANK).hint;
    RewritesByEnv(b, step);
    NamedDraftSound(b, step);
    NamedDraftEnv(b, step);
    HintIsInside(b, step);
    var p, ls := WithEnvInserts(u, step, hint);
    if !LeavesSome(b, step) {
      LinesAreQuiet(ls, step);
      InsertKeepsCold(u, p, ls);
    } else if Cold(Shapes(RewriteLines(b, step))) {
      FlagFits(u, step, hint, p, ls);
      InsertKeepsHeat(Shapes(u), p, |ls|, Shapes(InsertLines(u, p, ls)));
    }
  }

  /** A block, with one line before it and quiet lines inserted behind that one, covers all its run keys. */
  lemma {:induction false} InsertedEnds(o: seq<Line>, name: Line, p: nat, ls: seq<Line>, step: nat, r: nat)
    requires IsBlockLines(Shapes(o), step) && !name.shape.Run() && 0 < p <= |o| + 1 && StepLines(ls, step)
    requires var v := Shapes(InsertLines([name] + o, p, ls)); r < |v| && v[r].Run()
    ensures var q: nat := if p == 1 then 1 + |ls| else 1; Covers(Shapes(InsertLines([name] + o, p, ls)), q, r)
  {
    hide Written;
    var v, t := Shapes(InsertLines([name] + o, p, ls)), Shapes(o);
    var q: nat := if p == 1 then 1 + |ls| else 1;
    forall k | 0 <= k < |v|
      ensures v[k] == if k == 0 then name.shape else if k < p then t[k - 1]
                      else if k < p + |ls| then ls[k - p].shape else t[k - |ls| - 1]
    {
      hide *;
      InsertedShape(o, name, p, ls, k);
    }
  }

  lemma {:induction false} InsertedShape(o: seq<Line>, name: Line, p: nat, ls: seq<Line>, k: nat)
    requires 0 < p <= |o| + 1 && k < |o| + 1 + |ls|
    ensures |Shapes(InsertLines([name] + o, p, ls))| == |o| + 1 + |ls| && |Shapes(o)| == |o|
    ensures Shapes(InsertLines([name] + o, p, ls))[k]
            == if k == 0 then name.shape else if k < p then Shapes(o)[k - 1]
               else if k < p + |ls| then ls[k - p].shape else Shapes(o)[k - |ls| - 1]
  {
  }

  /** A hot run key of a rewritten step belongs to one of the steps it consists of. */
  lemma {:induction false} HotIsCovered(b: seq<Line>, step: nat, r: nat) returns (d: nat)
    requires IsBlockLines(Shapes(b), step) && AllRead(b) && Hot(Shapes(RewriteLines(b, step)), r)
    ensures Covers(Shapes(RewriteLines(b, step)), d, r)
  {
    hide *;
    var v := Shapes(RewriteLines(b, step));
    HotIsRun(v, r);
    if HasName(b) {
      RewrittenIsStep(b, step);
      d := 0;
      FirstCovers(v, step, r);
    } else {
      var u, hint := NamedDraft(b, step), Rewrite(b, step, 0, BLANK).hint;
      RewritesByEnv(b, step);
      NamedDraftSound(b, step);
      HintIsInside(b, step);
      var p, ls := WithEnvInserts(u, step, hint);
      DraftIsBlock(b, step);
      DraftExactly(b, step);
      NameLineIsDash(step, NEW_NAME);
      UnnamedDraft(b, step);
      InsertedEnds(Rewrite(b, step, 0, BLANK).lines, NameLine(step, NEW_NAME), p, ls, step, r);
      d := if p == 1 then 1 + |ls| else 1;
    }
  }

  lemma {:induction false} FirstCovers(v: Text, step: nat, r: nat)
    requires IsBlockLines(v, step) && r < |v|
    ensures Covers(v, 0, r)
  {
  }

  lemma {:induction false} UnnamedDraft(b: seq<Line>, step: nat)
    requires !Rewrite(b, step, 0, BLANK).named
    ensures NamedDraft(b, step) == [NameLine(step, NEW_NAME)] + Rewrite(b, step, 0, BLANK).lines
  {
    hide Rewrite, NameLine;
  }

  lemma {:induction false} LinesAreQuiet(ls: seq<Line>, step: nat)
    requires StepLines(ls, step)
    ensures forall k | 0 <= k < |ls| :: ls[k].shape.Quiet()
  {
  }

  /** A step that runs pytest and leaves no pytest run behind has a run key of its own, and is given the runner
      command. */
  lemma {:induction false} RewrittenRunsRunner(b: seq<Line>, step: nat)
    requires IsBlockLines(Shapes(b), step) && AllRead(b)
    ensures HasRun(b) ==> HasLine(RewriteLines(b, step), RUNNER_COMMAND)
    ensures !Cold(Shapes(b)) && !StaysHot(b, step) ==> HasRun(b)
  {
    hide *;
    var u, hint := NamedDraft(b, step), Rewrite(b, step, 0, BLANK).hint;
    RewritesByEnv(b, step);
    NamedDraftSound(b, step);
    HintIsInside(b, step);
    if HasRun(b) {
      var p, ls := WithEnvInserts(u, step, hint);
      InsertKeepsText(u, p, ls, RUNNER_COMMAND);
    }
    if !Cold(Shapes(b)) && !StaysHot(b, step) {
      PytestHasRun(b, step);
    }
  }

  lemma {:induction false} PytestHasRun(b: seq<Line>, step: nat)
    requires AllRead(b) && !Cold(Shapes(b)) && !StaysHot(b, step)
    ensures HasRun(b)
  {
    hide WellRead, Hot, Leads, NextLine, Enclosed;
    var r: nat :| Hot(Shapes(b), r);
    HotIsRun(Shapes(b), r);
    if Enclosed(b, r) {
      var j := OuterKey(b, r);
      if b[j].shape.Env() {
        EnvLeaves(b, step, j, r);
      }
    }
  }

  lemma {:induction false} EnvLeaves(b: seq<Line>, step: nat, e: nat, r: nat)
    requires Under(Shapes(b), e, r) && b[e].shape.Env() && !Enclosed(b, e) && Hot(Shapes(b), r)
    ensures StaysHot(b, step)
  {
    hide Hot, Enclosed;
    assert Leaves(b, step, e);
    assert HasEnv(b);
    assert !CutOff(b, step, e);
  }

  // ---------------------------------------------------------------- plainly written run keys

  /** The run keys of a block are outside env mappings and at most two columns deeper than its dash. */
  ghost predicate PlainBlock(t: Text, step: nat) {
    && (forall e: nat, r: nat | Under(t, e, r) :: t[e].Env() ==> !t[r].Run())
    && (forall r: nat | r < |t| && t[r].Run() :: t[r].indent <= step + 2)
  }

  /** Steps whose run keys are written plainly leave no pytest run behind. */
  lemma {:induction false} PlainLeavesNothing(b: seq<Line>, step: nat)
    requires AllRead(b) && PlainBlock(Shapes(b), step)
    ensures !StaysHot(b, step)
  {
    hide WellRead, Hot, Enclosed, Named;
    forall k: nat | k < |b|
      ensures !Leaves(b, step, k)
    {
      if b[k].shape.Env() {
        forall r: nat | Under(Shapes(b), k, r)
          ensures !Hot(Shapes(b), r)
        {
          if Hot(Shapes(b), r) { HotIsRun(Shapes(b), r); }
        }
      } else if b[k].shape.Run() {
        KeyIsNoName(b[k]);
        assert Shapes(b)[k].indent <= step + 2;
      }
    }
  }

  // ---------------------------------------------------------------- what is kept

  /** Every line of a rewritten step is one of its own, in order and at most with the suffix, or was written; the lines
      it lost belong to its run keys. */
  lemma {:induction false} RewrittenKeepsLines(b: seq<Line>, step: nat) returns (src: seq<int>)
    requires IsBlockLines(Shapes(b), step) && AllRead(b)
    ensures Kept(b, RewriteLines(b, step), src, |b|)
  {
    hide *;
    NothingKept(b);
    RewriteIsTraced(b, step, 0, BLANK);
    var drafted := NamedDraftKept(b, step);
    RewritesByEnv(b, step);
    HintIsInside(b, step);
    NamedDraftSound(b, step);
    var d := Rewrite(b, step, 0, BLANK);
    var p, ls := WithEnvInserts(NamedDraft(b, step), step, d.hint);
    LinesAreWritten(ls, step);
    src := KeptWithLines(b, NamedDraft(b, step), drafted, p, ls);
    InsertedIs(NamedDraft(b, step), p, ls);
  }

  lemma {:induction false} InsertedIs(u: seq<Line>, p: nat, ls: seq<Line>)
    requires p <= |u|
    ensures InsertLines(u, p, ls) == u[..p] + ls + u[p..]
  {
  }

  lemma {:induction false} NothingKept(b: seq<Line>)
    ensures Kept(b, BLANK.lines, BLANK.src, 0)
  {
  }

  lemma {:induction false} LinesAreWritten(ls: seq<Line>, step: nat)
    requires StepLines(ls, step)
    ensures forall k | 0 <= k < |ls| :: Written(ls[k])
  {
  }

  lemma {:induction false} NamedDraftKept(b: seq<Line>, step: nat) returns (src: seq<int>)
    requires var d := Rewrite(b, step, 0, BLANK); Kept(b, d.lines, d.src, |b|)
    ensures Kept(b, NamedDraft(b, step), src, |b|)
  {
    hide *;
    var d := Rewrite(b, step, 0, BLANK);
    src := d.src;
    if d.named {
      NamedDraftForm(b, step);
    } else {
      var name := NameLine(step, NEW_NAME);
      NameIsWritten(step);
      src := KeptWithLines(b, d.lines, d.src, 0, [name]);
      UnnamedDraft(b, step);
      assert d.lines[..0] + [name] + d.lines[0..] == [name] + d.lines;
    }
  }

  lemma {:induction false} NamedDraftForm(b: seq<Line>, step: nat)
    requires Rewrite(b, step, 0, BLANK).named
    ensures NamedDraft(b, step) == Rewrite(b, step, 0, BLANK).lines
  {
    hide Rewrite, NameLine;
  }

  lemma {:induction false} NameIsWritten(step: nat)
    ensures Written(NameLine(step, NEW_NAME))
  {
    hide WellRead, NEW_NAME;
  }
}
