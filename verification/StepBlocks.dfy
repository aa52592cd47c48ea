/** Step blocks of a workflow text, described without reference to the scan that finds them.

    A run key is hot when it, or a line of its body, runs pytest.  A dash line covers the lines up to the end of its
    block.  A scan from line `from` finds a pytest step exactly when a dash line at or after `from` covers a hot run
    key. */
module StepBlocks {

  datatype Kind = Blank | Dash | RunKey | EnvKey | StepsKey | StrategyKey | MatrixKey | ModeKey | Other

  /** What the patcher looks at in a line: its indentation, how its text starts, and whether it runs pytest. */
  datatype Shape = Shape(indent: nat, kind: Kind, pytest: bool) {
    predicate Blank() { kind.Blank? }
    predicate Dash() { kind.Dash? }
    predicate Run() { kind.RunKey? }
    predicate Env() { kind.EnvKey? }

    /** A line that ends a block opened by a dash at indentation `step`. */
    predicate Ends(step: nat) {
      !Blank() && (indent < step || (indent == step && Dash()))
    }

    /** A line that neither opens a step, nor is a run key, nor mentions pytest. */
    predicate Quiet() { !Blank() && !Dash() && !Run() && !pytest }
  }

  type Text = seq<Shape>

  /** `x` belongs to the run key at `r`: it is the key itself or a more deeply indented line of its body. */
  ghost predicate InBody(t: Text, r: nat, x: nat)
    requires r < |t|
  {
    r <= x < |t| && forall y | r < y <= x :: !t[y].Run() && t[r].indent < t[y].indent
  }

  ghost predicate Hot(t: Text, r: nat) {
    r < |t| && t[r].Run() && exists x: nat :: InBody(t, r, x) && t[x].pytest
  }

  ghost predicate Cold(t: Text) { forall r: nat :: !Hot(t, r) }

  ghost predicate Covers(t: Text, d: nat, r: nat) {
    d <= r < |t| && t[d].Dash() && forall y | d < y <= r :: !t[y].Ends(t[d].indent)
  }

  /** The hot run key `r` is seen by a scan that starts at `from`. */
  ghost predicate ExposedFrom(t: Text, from: nat, r: nat) {
    Hot(t, r) && exists d: nat :: from <= d && Covers(t, d, r)
  }

  ghost predicate HasPytestStep(t: Text) {
    exists r: nat :: ExposedFrom(t, 0, r)
  }

  /** No block opened before line `f` reaches line `f`. */
  ghost predicate Aligned(t: Text, f: nat) {
    f <= |t| && forall d: nat | d < f :: !Covers(t, d, f)
  }

  /** A scan that starts at `base` meets no pytest step before line `f`. */
  ghost predicate Clean(t: Text, base: nat, f: nat) {
    forall r: nat | r < f :: !ExposedFrom(t, base, r)
  }

  datatype StepBlock = StepBlock(start: nat, end: nat, indent: nat, lines: Text)

  ghost predicate IsBlockLines(b: Text, step: nat) {
    && b != [] && b[0].Dash() && b[0].indent == step
    && forall k | 0 < k < |b| :: !b[k].Ends(step)
  }

  ghost predicate IsBlock(t: Text, b: StepBlock) {
    && b.start < b.end <= |t|
    && b.lines == t[b.start..b.end]
    && IsBlockLines(b.lines, b.indent)
    && (b.end < |t| ==> t[b.end].Ends(b.indent))
  }

  /** What a scan for a pytest step from line `from` returns. */
  ghost predicate FirstPytestBlock(t: Text, from: nat, b: StepBlock) {
    && from <= b.start && IsBlock(t, b)
    && (exists r: nat :: Hot(b.lines, r))
    && (forall d: nat | from <= d < b.start :: !Covers(t, d, b.start))
    && (forall r: nat | r < b.start :: !ExposedFrom(t, from, r))
  }

  // ---------------------------------------------------------------- hot runs inside a block

  lemma {:induction false} CoverPrefix(t: Text, d: nat, r: nat, m: nat)
    requires Covers(t, d, r) && d <= m <= r
    ensures Covers(t, d, m)
  {
  }

  lemma {:induction false} BlockCovers(t: Text, b: StepBlock, r: nat)
    requires IsBlock(t, b) && b.start <= r < b.end
    ensures Covers(t, b.start, r)
  {
    assert b.lines[0] == t[b.start];
    forall y | b.start < y <= r
      ensures !t[y].Ends(t[b.start].indent)
    {
      assert b.lines[y - b.start] == t[y];
    }
  }

  /** The run keys of a block are at least as deep as the dash, so their bodies end with the block. */
  lemma {:induction false} HotInBlock(t: Text, b: StepBlock, r: nat)
    requires IsBlock(t, b) && b.start <= r < b.end
    ensures Hot(t, r) <==> Hot(b.lines, r - b.start)
  {
    var q := r - b.start;
    assert forall k | 0 <= k < |b.lines| :: b.lines[k] == t[b.start + k];
    if Hot(b.lines, q) {
      var x: nat :| InBody(b.lines, q, x) && b.lines[x].pytest;
      forall y | r < y <= b.start + x
        ensures !t[y].Run() && t[r].indent < t[y].indent
      {
        assert b.lines[y - b.start] == t[y];
      }
      assert InBody(t, r, b.start + x);
    }
    if Hot(t, r) {
      var x: nat :| InBody(t, r, x) && t[x].pytest;
      assert t[r] == b.lines[q];
      assert q > 0 ==> !b.lines[q].Ends(b.indent);
      assert InBody(b.lines, q, x - b.start);
    }
  }

  /** A block nested in another ends no later than it. */
  lemma {:induction false} NestedEnds(t: Text, b: StepBlock, d: nat, m: nat)
    requires IsBlock(t, b) && b.start <= d < b.end <= m
    ensures !Covers(t, d, m)
  {
    assert t[d] == b.lines[d - b.start];
    if b.end < |t| && t[d].Dash() {
      assert t[b.end].Ends(t[d].indent);
    }
  }

  // ---------------------------------------------------------------- moving the frontier

  lemma {:induction false} FirstBlockIsFrontier(t: Text, from: nat, f: nat, b: StepBlock)
    requires FirstPytestBlock(t, from, b) && Aligned(t, f) && from <= f <= b.start
    ensures Aligned(t, b.start)
  {
    forall d: nat | d < b.start
      ensures !Covers(t, d, b.start)
    {
      if Covers(t, d, b.start) && d < from {
        CoverPrefix(t, d, b.start, f);
      }
    }
  }

  lemma {:induction false} FirstBlockStaysClean(t: Text, base: nat, from: nat, f: nat, b: StepBlock)
    requires FirstPytestBlock(t, from, b) && Aligned(t, f) && base <= from <= f && Clean(t, base, f)
    ensures f <= b.start && Clean(t, base, b.start)
  {
    var q: nat :| Hot(b.lines, q);
    var r0 := b.start + q;
    HotInBlock(t, b, r0);
    BlockCovers(t, b, r0);
    assert ExposedFrom(t, base, r0);
    assert f <= b.start by {
      if b.start < f {
        CoverPrefix(t, b.start, r0, f);
      }
    }
    forall r: nat | r < b.start
      ensures !ExposedFrom(t, base, r)
    {
      if ExposedFrom(t, base, r) {
        var d: nat :| base <= d && Covers(t, d, r);
        if d < from {
          CoverPrefix(t, d, r, f);
        }
        assert ExposedFrom(t, from, r);
      }
    }
  }

  lemma {:induction false} NothingLeft(t: Text, f: nat)
    requires Aligned(t, f) && Clean(t, 0, f)
    requires forall r: nat :: !ExposedFrom(t, f, r)
    ensures !HasPytestStep(t)
  {
    forall r: nat
      ensures !ExposedFrom(t, 0, r)
    {
      if ExposedFrom(t, 0, r) {
        var d: nat :| Covers(t, d, r);
        if f <= r && d < f {
          CoverPrefix(t, d, r, f);
        }
        assert ExposedFrom(t, f, r);
      }
    }
  }

  // ---------------------------------------------------------------- edits

  /** `u` is `t` with `n` quiet lines inserted at `p`. */
  ghost predicate Inserted(t: Text, p: nat, n: nat, u: Text) {
    && p <= |t| && |u| == |t| + n
    && (forall k | 0 <= k < p :: u[k] == t[k])
    && (forall k | p <= k < p + n :: u[k].Quiet())
    && (forall k | p + n <= k < |u| :: u[k] == t[k - n])
  }

  /** Where the line with index `f` is after an insertion at `p`; an insertion at `f` itself goes before it. */
  function Shifted(f: nat, p: nat, n: nat): nat {
    if p <= f then f + n else f
  }

  /** Quiet lines make nothing hot: a run key hot after the insertion was hot before. */
  lemma {:induction false} InsertKeepsHot(t: Text, p: nat, n: nat, u: Text, r: nat)
    requires Inserted(t, p, n, u) && Hot(u, r)
    ensures r < p || p + n <= r
    ensures Hot(t, if r < p then r else r - n)
  {
    var x: nat :| InBody(u, r, x) && u[x].pytest;
    var r0 := if r < p then r else r - n;
    var x0 := if x < p then x else x - n;
    forall y | r0 < y <= x0
      ensures !t[y].Run() && t[r0].indent < t[y].indent
    {
      assert t[y] == u[if y < p then y else y + n];
    }
    assert InBody(t, r0, x0);
  }

  lemma {:induction false} InsertKeepsCover(t: Text, p: nat, n: nat, u: Text, d: nat, r: nat)
    requires Inserted(t, p, n, u) && Covers(u, d, r)
    requires r < p || p + n <= r
    ensures d < p || p + n <= d
    ensures Covers(t, if d < p then d else d - n, if r < p then r else r - n)
  {
    var d0 := if d < p then d else d - n;
    var r0 := if r < p then r else r - n;
    forall y | d0 < y <= r0
      ensures !t[y].Ends(t[d0].indent)
    {
      assert t[y] == u[if y < p then y else y + n];
    }
  }

  lemma {:induction false} InsertKeepsExposed(t: Text, base: nat, p: nat, n: nat, u: Text, r: nat)
    requires Inserted(t, p, n, u) && base <= p && ExposedFrom(u, base, r)
    ensures r < p || p + n <= r
    ensures ExposedFrom(t, base, if r < p then r else r - n)
  {
    var d: nat :| base <= d && Covers(u, d, r);
    InsertKeepsHot(t, p, n, u, r);
    InsertKeepsCover(t, p, n, u, d, r);
  }

  lemma {:induction false} InsertKeepsFrontier(t: Text, base: nat, p: nat, n: nat, u: Text, f: nat)
    requires Inserted(t, p, n, u) && base <= p && f <= |t|
    ensures Aligned(t, f) ==> Aligned(u, Shifted(f, p, n))
    ensures Clean(t, base, f) ==> Clean(u, base, Shifted(f, p, n))
  {
    var g := Shifted(f, p, n);
    if Aligned(t, f) {
      forall d: nat | d < g
        ensures !Covers(u, d, g)
      {
        if Covers(u, d, g) {
          InsertKeepsCover(t, p, n, u, d, g);
        }
      }
    }
    if Clean(t, base, f) {
      forall r: nat | r < g
        ensures !ExposedFrom(u, base, r)
      {
        if ExposedFrom(u, base, r) {
          InsertKeepsExposed(t, base, p, n, u, r);
        }
      }
    }
  }

  // Replacing the block at the frontier by lines that are no deeper problem than the block itself.

  function Substituted(t: Text, a: nat, b: nat, ls: Text): Text
    requires a <= b <= |t|
  {
    t[..a] + ls + t[b..]
  }

  lemma {:induction false} SplicedLines(t: Text, a: nat, b: nat, ls: Text)
    requires a <= b <= |t|
    ensures |Substituted(t, a, b, ls)| == |t| - (b - a) + |ls|
    ensures forall k | 0 <= k < a :: Substituted(t, a, b, ls)[k] == t[k]
    ensures forall k | a <= k < a + |ls| :: Substituted(t, a, b, ls)[k] == ls[k - a]
    ensures forall k | a + |ls| <= k < |Substituted(t, a, b, ls)| :: Substituted(t, a, b, ls)[k] == t[k - |ls| - a + b]
    ensures Substituted(t, a, b, ls)[a + |ls|..] == t[b..]
  {
  }

  ghost predicate StepShaped(ls: Text, step: nat) {
    && ls != [] && ls[0].Dash() && ls[0].indent == step
    && forall k | 0 <= k < |ls| && !ls[k].Blank() :: step <= ls[k].indent
  }

  lemma {:induction false} ReplaceKeepsAlignment(t: Text, a: nat, b: nat, ls: Text, step: nat)
    requires Aligned(t, a) && a < |t| && a <= b <= |t|
    requires t[a].Dash() && t[a].indent == step && (b < |t| ==> t[b].Ends(step))
    requires StepShaped(ls, step)
    ensures Aligned(Substituted(t, a, b, ls), a + |ls|)
  {
    var u, g := Substituted(t, a, b, ls), a + |ls|;
    SplicedLines(t, a, b, ls);
    forall d: nat | d < g
      ensures !Covers(u, d, g)
    {
      if Covers(u, d, g) && d < a {
        CoverPrefix(u, d, g, a);
        assert Covers(t, d, a);
      }
    }
  }

  lemma {:induction false} ReplaceStaysClean(t: Text, base: nat, a: nat, b: nat, ls: Text, step: nat)
    requires Aligned(t, a) && base <= a < |t| && a <= b <= |t| && Clean(t, base, a)
    requires t[a].Dash() && t[a].indent == step && (b < |t| ==> t[b].Ends(step))
    requires StepShaped(ls, step) && forall r: nat :: !Hot(ls, r)
    ensures Clean(Substituted(t, a, b, ls), base, a + |ls|)
  {
    var u, g := Substituted(t, a, b, ls), a + |ls|;
    SplicedLines(t, a, b, ls);
    assert g < |u| ==> u[g] == t[b];
    forall r: nat | r < g
      ensures !ExposedFrom(u, base, r)
    {
      if ExposedFrom(u, base, r) {
        var d: nat :| base <= d && Covers(u, d, r);
        var x: nat :| InBody(u, r, x) && u[x].pytest;
        if r < a {
          assert Covers(t, d, r);
          BodyBeforeReplacement(t, a, b, ls, step, d, r, x);
          assert Hot(t, r);
          assert ExposedFrom(t, base, r);
        } else {
          BodyInReplacement(t, a, b, ls, step, r, x);
        }
      }
    }
  }

  lemma {:induction false} BodyInReplacement(t: Text, a: nat, b: nat, ls: Text, step: nat, r: nat, x: nat)
    requires a <= b <= |t| && (b < |t| ==> t[b].Ends(step)) && StepShaped(ls, step)
    requires a <= r < a + |ls| && ls[r - a].Run()
    requires r < |Substituted(t, a, b, ls)| && InBody(Substituted(t, a, b, ls), r, x)
    requires Substituted(t, a, b, ls)[x].pytest
    ensures Hot(ls, r - a)
  {
    var u := Substituted(t, a, b, ls);
    SplicedLines(t, a, b, ls);
    assert u[r] == ls[r - a];
    assert b < |t| ==> u[a + |ls|] == t[b];
    assert x < a + |ls|;
    forall y | r - a < y <= x - a
      ensures !ls[y].Run() && ls[r - a].indent < ls[y].indent
    {
      assert u[y + a] == ls[y];
    }
    assert InBody(ls, r - a, x - a);
  }

  lemma {:induction false} BodyBeforeReplacement(t: Text, a: nat, b: nat, ls: Text, step: nat, d: nat, r: nat, x: nat)
    requires Aligned(t, a) && a < |t| && a <= b <= |t|
    requires t[a].Dash() && t[a].indent == step && StepShaped(ls, step)
    requires r < a && Covers(t, d, r) && t[r].Run()
    requires InBody(Substituted(t, a, b, ls), r, x)
    ensures x < a && InBody(t, r, x)
  {
    var u := Substituted(t, a, b, ls);
    SplicedLines(t, a, b, ls);
    if a <= x {
      assert u[a] == ls[0];
      forall y | r < y <= a
        ensures !t[y].Ends(t[d].indent)
      {
        assert u[y].indent == t[y].indent;
      }
      assert Covers(t, d, a);
    }
  }

  // Replacing the body of a run key in place, wherever it is.

  /** Lines `q+1..p` belong to the run key at `q`, and line `p` does not. */
  ghost predicate RunExtent(t: Text, q: nat, p: nat) {
    && q < p <= |t| && t[q].Run()
    && (forall k | q < k < p :: t[q].indent < t[k].indent)
    && (p < |t| ==> t[p].indent <= t[q].indent)
  }

  /** `u` is `t` with the run key at `q` and its lines up to `p` replaced by a run key and `n` script lines. */
  ghost predicate Refreshed(t: Text, q: nat, p: nat, n: nat, u: Text) {
    && RunExtent(t, q, p) && |u| == |t| - (p - q) + 1 + n
    && (forall k | 0 <= k < q :: u[k] == t[k])
    && u[q] == Shape(t[q].indent, RunKey, false)
    && (forall k | q < k < q + 1 + n :: u[k].kind == Other && !u[k].pytest && t[q].indent < u[k].indent)
    && (forall k | q + 1 + n <= k < |u| :: u[k] == t[k - 1 - n - q + p])
  }

  /** The line of the old text at index `k` of the refreshed one. */
  function LineBefore(q: nat, p: nat, n: nat, k: nat): int {
    if k <= q then k else k - 1 - n - q + p
  }

  /** The frontier after the refresh; it never lies strictly between `q` and `p`. */
  function Moved(f: nat, q: nat, p: nat, n: nat): int {
    if f <= q then f else f - (p - q) + 1 + n
  }

  lemma {:induction false} RefreshKeepsCover(t: Text, q: nat, p: nat, n: nat, u: Text, d: nat, r: nat)
    requires Refreshed(t, q, p, n, u) && Covers(u, d, r)
    requires r <= q || q + 1 + n <= r
    ensures d < q || q + 1 + n <= d
    ensures 0 <= LineBefore(q, p, n, d) && 0 <= LineBefore(q, p, n, r)
    ensures Covers(t, LineBefore(q, p, n, d), LineBefore(q, p, n, r))
  {
    var d0, r0 := LineBefore(q, p, n, d), LineBefore(q, p, n, r);
    forall y | d0 < y <= r0
      ensures !t[y].Ends(t[d0].indent)
    {
      if p <= y {
        assert t[y] == u[y - p + q + 1 + n];
      } else if y < q {
        assert t[y] == u[y];
      } else {
        assert !u[q].Ends(u[d].indent);
      }
    }
  }

  /** A body that starts after the refreshed script is a body of the old text. */
  lemma {:induction false} BodyAfterRefresh(t: Text, q: nat, p: nat, n: nat, u: Text, r: nat, x: nat)
    requires Refreshed(t, q, p, n, u) && q + 1 + n <= r < |u| && InBody(u, r, x)
    ensures InBody(t, LineBefore(q, p, n, r), LineBefore(q, p, n, x))
  {
    forall y | LineBefore(q, p, n, r) < y <= LineBefore(q, p, n, x)
      ensures !t[y].Run() && t[LineBefore(q, p, n, r)].indent < t[y].indent
    {
      assert t[y] == u[y - p + q + 1 + n];
    }
  }

  lemma {:induction false} RefreshKeepsHot(t: Text, q: nat, p: nat, n: nat, u: Text, r: nat)
    requires Refreshed(t, q, p, n, u) && Hot(u, r)
    ensures r < q || q + 1 + n <= r
    ensures 0 <= LineBefore(q, p, n, r) && Hot(t, LineBefore(q, p, n, r))
  {
    var x: nat :| InBody(u, r, x) && u[x].pytest;
    if q <= r {
      assert q + 1 + n < |u| ==> u[q + 1 + n] == t[p];
      BodyAfterRefresh(t, q, p, n, u, r, x);
    } else {
      assert InBody(t, r, x);
    }
  }

  lemma {:induction false} RefreshKeepsExposed(t: Text, base: nat, q: nat, p: nat, n: nat, u: Text, r: nat)
    requires Refreshed(t, q, p, n, u) && base <= q && ExposedFrom(u, base, r)
    ensures r < q || q + 1 + n <= r
    ensures 0 <= LineBefore(q, p, n, r) && ExposedFrom(t, base, LineBefore(q, p, n, r))
  {
    var d: nat :| base <= d && Covers(u, d, r);
    RefreshKeepsHot(t, q, p, n, u, r);
    RefreshKeepsCover(t, q, p, n, u, d, r);
  }

  lemma {:induction false} RefreshSparesCover(t: Text, q: nat, p: nat, n: nat, u: Text, d: nat, r: nat)
    requires Refreshed(t, q, p, n, u) && Covers(t, d, r) && (d < q || p <= d) && p <= r
    ensures 0 <= Moved(d, q, p, n) && 0 <= Moved(r, q, p, n) && Covers(u, Moved(d, q, p, n), Moved(r, q, p, n))
  {
    var e := q + 1 + n;
    var d1, r1 := Moved(d, q, p, n), Moved(r, q, p, n);
    forall y | d1 < y <= r1
      ensures !u[y].Ends(u[d1].indent)
    {
      if e <= y {
        assert u[y] == t[y - e + p];
      } else if y <= q {
        assert u[y].kind == t[y].kind && u[y].indent == t[y].indent;
      } else {
        assert !t[q].Ends(t[d].indent);
      }
    }
  }

  lemma {:induction false} RefreshSparesHeat(t: Text, q: nat, p: nat, n: nat, u: Text, r: nat)
    requires Refreshed(t, q, p, n, u) && Hot(t, r) && (r < q || p <= r)
    ensures 0 <= Moved(r, q, p, n) && Hot(u, Moved(r, q, p, n))
  {
    if r < q {
      var x: nat :| InBody(t, r, x) && t[x].pytest;
      assert x < q;
      assert InBody(u, r, x);
    } else {
      assert t[p..] == u[q + 1 + n..];
      SuffixHot(t, p, u, q + 1 + n, r - p);
    }
  }

  /** A pytest step outside the refreshed script, which belongs to the block at `d1`, stays exposed. */
  lemma {:induction false} RefreshSparesExposed(t: Text, base: nat, q: nat, p: nat, n: nat, u: Text, d1: nat, r: nat)
    requires Refreshed(t, q, p, n, u) && base <= d1 < q && Covers(t, d1, q)
    requires ExposedFrom(t, base, r) && (r < q || p <= r)
    ensures 0 <= Moved(r, q, p, n) && ExposedFrom(u, base, Moved(r, q, p, n))
  {
    var d: nat :| base <= d && Covers(t, d, r);
    RefreshSparesHeat(t, q, p, n, u, r);
    hide Hot;
    if r < q {
      assert Covers(u, d, r);
    } else {
      CoverOfOuter(t, q, p, d1, d, r);
      RefreshSparesCover(t, q, p, n, u, if q <= d < p then d1 else d, r);
    }
  }

  lemma {:induction false} CoverOfOuter(t: Text, q: nat, p: nat, d1: nat, d: nat, r: nat)
    requires RunExtent(t, q, p) && d1 < q && Covers(t, d1, q) && Covers(t, d, r) && p <= r
    ensures q <= d < p ==> Covers(t, d1, r)
  {
    if q <= d < p {
      assert t[d1].indent <= t[q].indent;
      forall y | d1 < y <= r
        ensures !t[y].Ends(t[d1].indent)
      {
        assert q < y <= d ==> t[q].indent < t[y].indent;
      }
    }
  }

  lemma {:induction false} RefreshKeepsFrontier(t: Text, base: nat, q: nat, p: nat, n: nat, u: Text, f: nat)
    requires Refreshed(t, q, p, n, u) && base <= q && f <= |t| && (f <= q || p <= f)
    ensures 0 <= Moved(f, q, p, n)
    ensures Aligned(t, f) ==> Aligned(u, Moved(f, q, p, n))
    ensures Clean(t, base, f) ==> Clean(u, base, Moved(f, q, p, n))
  {
    var g := Moved(f, q, p, n);
    if Aligned(t, f) {
      forall d: nat | d < g
        ensures !Covers(u, d, g)
      {
        if Covers(u, d, g) {
          RefreshKeepsCover(t, q, p, n, u, d, g);
        }
      }
    }
    if Clean(t, base, f) {
      forall r: nat | r < g
        ensures !ExposedFrom(u, base, r)
      {
        if ExposedFrom(u, base, r) {
          RefreshKeepsExposed(t, base, q, p, n, u, r);
        }
      }
    }
  }

  // ---------------------------------------------------------------- how much work is left

  /** The number of hot run keys from line `f` on: the measure by which the patcher terminates. */
  ghost function HotsFrom(t: Text, f: nat): nat
    requires f <= |t|
    decreases |t| - f
  {
    if f == |t| then 0 else (if Hot(t, f) then 1 else 0) + HotsFrom(t, f + 1)
  }

  lemma {:induction false} HotsShrink(t: Text, f: nat, g: nat)
    requires f <= g <= |t|
    ensures HotsFrom(t, g) <= HotsFrom(t, f)
    ensures (exists r: nat :: f <= r < g && Hot(t, r)) ==> HotsFrom(t, g) < HotsFrom(t, f)
    ensures (forall r: nat :: f <= r < g ==> !Hot(t, r)) ==> HotsFrom(t, g) == HotsFrom(t, f)
    decreases g - f
  {
    if f < g {
      HotsShrink(t, f + 1, g);
    }
  }

  lemma {:induction false} SuffixHot(t: Text, f: nat, u: Text, g: nat, k: nat)
    requires f <= |t| && g <= |u| && t[f..] == u[g..]
    requires Hot(t, f + k)
    ensures Hot(u, g + k)
  {
    assert forall i | f <= i < |t| :: t[i] == t[f..][i - f] == u[i - f + g];
    var x: nat :| InBody(t, f + k, x) && t[x].pytest;
    forall y | g + k < y <= x - f + g
      ensures !u[y].Run() && u[g + k].indent < u[y].indent
    {
      assert t[y - g + f] == u[y];
    }
    assert InBody(u, g + k, x - f + g);
  }

  lemma {:induction false} SuffixHots(t: Text, f: nat, u: Text, g: nat)
    requires f <= |t| && g <= |u| && t[f..] == u[g..]
    ensures HotsFrom(t, f) == HotsFrom(u, g)
    decreases |t| - f
  {
    assert |t[f..]| == |u[g..]|;
    if f < |t| {
      assert t[f + 1..] == t[f..][1..] == u[g..][1..] == u[g + 1..];
      SuffixHots(t, f + 1, u, g + 1);
      if Hot(t, f) { SuffixHot(t, f, u, g, 0); }
      if Hot(u, g) { SuffixHot(u, g, t, f, 0); }
    }
  }

  lemma {:induction false} InsertHots(t: Text, p: nat, n: nat, u: Text, f: nat)
    requires Inserted(t, p, n, u) && f <= |t|
    ensures HotsFrom(u, Shifted(f, p, n)) <= HotsFrom(t, f)
    decreases |t| - f
  {
    if p <= f {
      assert u[f + n..] == t[f..];
      SuffixHots(u, f + n, t, f);
    } else {
      InsertHots(t, p, n, u, f + 1);
      if Hot(u, f) { InsertKeepsHot(t, p, n, u, f); }
      if f + 1 == p {
        forall r: nat | p <= r < p + n
          ensures !Hot(u, r)
        {
        }
        HotsShrink(u, p, p + n);
      }
    }
  }

  lemma {:induction false} RefreshHots(t: Text, q: nat, p: nat, n: nat, u: Text, f: nat)
    requires Refreshed(t, q, p, n, u) && f <= |t| && (f <= q || p <= f)
    ensures 0 <= Moved(f, q, p, n) <= |u|
    ensures HotsFrom(u, Moved(f, q, p, n)) <= HotsFrom(t, f)
    decreases |t| - f
  {
    var g, e := Moved(f, q, p, n), q + 1 + n;
    if p <= f {
      assert u[g..] == t[f..];
      SuffixHots(u, g, t, f);
    } else if f < q {
      RefreshHots(t, q, p, n, u, f + 1);
      if Hot(u, f) { RefreshKeepsHot(t, q, p, n, u, f); }
    } else {
      forall r: nat | q <= r < e
        ensures !Hot(u, r)
      {
        if Hot(u, r) { RefreshKeepsHot(t, q, p, n, u, r); }
      }
      HotsShrink(u, q, e);
      assert u[e..] == t[p..];
      SuffixHots(u, e, t, p);
      HotsShrink(t, q, p);
    }
  }

  // ---------------------------------------------------------------- plainly written run keys

  /** `r` is inside the mapping opened by the env key at `e`. */
  ghost predicate Under(t: Text, e: nat, r: nat) {
    e < r < |t| && forall y | e < y <= r :: t[y].Blank() || t[e].indent < t[y].indent
  }

  /** From line `f` on, no run key is inside an env mapping, and none is more than two columns deeper than the dash
      of a block it belongs to. */
  ghost predicate PlainFrom(t: Text, f: nat) {
    && (forall e: nat, r: nat | f <= e && Under(t, e, r) :: t[e].Env() ==> !t[r].Run())
    && (forall d: nat, r: nat | f <= d && Covers(t, d, r) :: t[r].Run() ==> t[r].indent <= t[d].indent + 2)
  }

  lemma {:induction false} PlainSuffix(t: Text, f: nat, g: nat)
    requires PlainFrom(t, f) && f <= g
    ensures PlainFrom(t, g)
  {
  }

  lemma {:induction false} UnderAfterInsert(t: Text, p: nat, n: nat, u: Text, e: nat, r: nat)
    requires Inserted(t, p, n, u) && Under(u, e, r)
    requires (e < p || p + n <= e) && (r < p || p + n <= r)
    ensures Under(t, if e < p then e else e - n, if r < p then r else r - n)
  {
    var e0 := if e < p then e else e - n;
    var r0 := if r < p then r else r - n;
    forall y | e0 < y <= r0
      ensures t[y].Blank() || t[e0].indent < t[y].indent
    {
      assert t[y] == u[if y < p then y else y + n];
    }
  }

  lemma {:induction false} PlainInsert(t: Text, p: nat, n: nat, u: Text, f: nat)
    requires Inserted(t, p, n, u) && (forall k | p <= k < p + n :: !u[k].Env())
    requires PlainFrom(t, f)
    ensures PlainFrom(u, Shifted(f, p, n))
  {
    var g := Shifted(f, p, n);
    forall e: nat, r: nat | g <= e && Under(u, e, r)
      ensures u[e].Env() ==> !u[r].Run()
    {
      if u[e].Env() && u[r].Run() {
        UnderAfterInsert(t, p, n, u, e, r);
      }
    }
    forall d: nat, r: nat | g <= d && Covers(u, d, r)
      ensures u[r].Run() ==> u[r].indent <= u[d].indent + 2
    {
      if u[r].Run() {
        InsertKeepsCover(t, p, n, u, d, r);
      }
    }
  }

  lemma {:induction false} PlainSameSuffix(t: Text, f: nat, u: Text, g: nat)
    requires f <= |t| && g <= |u| && t[f..] == u[g..] && PlainFrom(t, f)
    ensures PlainFrom(u, g)
  {
    assert forall i | g <= i < |u| :: u[i] == u[g..][i - g] == t[i - g + f];
    assert forall i | f <= i < |t| :: t[i] == t[f..][i - f] == u[i - f + g];
    forall e: nat, r: nat | g <= e && Under(u, e, r)
      ensures u[e].Env() ==> !u[r].Run()
    {
      assert Under(t, e - g + f, r - g + f);
    }
    forall d: nat, r: nat | g <= d && Covers(u, d, r)
      ensures u[r].Run() ==> u[r].indent <= u[d].indent + 2
    {
      assert Covers(t, d - g + f, r - g + f);
    }
  }

  lemma {:induction false} UnderAfterRefresh(t: Text, q: nat, p: nat, n: nat, u: Text, e: nat, r: nat)
    requires Refreshed(t, q, p, n, u) && Under(u, e, r)
    requires (e < q || q + 1 + n <= e) && (r <= q || q + 1 + n <= r)
    ensures 0 <= LineBefore(q, p, n, e) && 0 <= LineBefore(q, p, n, r)
    ensures Under(t, LineBefore(q, p, n, e), LineBefore(q, p, n, r))
  {
    var e0, r0 := LineBefore(q, p, n, e), LineBefore(q, p, n, r);
    forall y | e0 < y <= r0
      ensures t[y].Blank() || t[e0].indent < t[y].indent
    {
      if p <= y {
        assert t[y] == u[y - p + q + 1 + n];
      } else if y < q {
        assert t[y] == u[y];
      } else {
        assert u[e].indent < u[q].indent;
      }
    }
  }

  lemma {:induction false} EnvAfterRefresh(t: Text, q: nat, p: nat, n: nat, u: Text, f: nat, e: nat, r: nat)
    requires Refreshed(t, q, p, n, u) && f <= |t| && (f <= q || p <= f) && PlainFrom(t, f)
    requires Moved(f, q, p, n) <= e && Under(u, e, r)
    ensures u[e].Env() ==> !u[r].Run()
  {
    hide PlainFrom;
    if u[e].Env() && u[r].Run() {
      UnderAfterRefresh(t, q, p, n, u, e, r);
      NoRunUnder(t, f, LineBefore(q, p, n, e), LineBefore(q, p, n, r));
    }
  }

  lemma {:induction false} NoRunUnder(t: Text, f: nat, e: nat, r: nat)
    requires PlainFrom(t, f) && f <= e && Under(t, e, r)
    ensures t[e].Env() ==> !t[r].Run()
  {
    hide Covers;
  }

  lemma {:induction false} NoDeepRun(t: Text, f: nat, d: nat, r: nat)
    requires PlainFrom(t, f) && f <= d && Covers(t, d, r)
    ensures t[r].Run() ==> t[r].indent <= t[d].indent + 2
  {
    hide Under;
  }

  lemma {:induction false} RunAfterRefresh(t: Text, q: nat, p: nat, n: nat, u: Text, f: nat, d: nat, r: nat)
    requires Refreshed(t, q, p, n, u) && f <= |t| && (f <= q || p <= f) && PlainFrom(t, f)
    requires Moved(f, q, p, n) <= d && Covers(u, d, r)
    ensures u[r].Run() ==> u[r].indent <= u[d].indent + 2
  {
    hide PlainFrom;
    if u[r].Run() {
      RefreshKeepsCover(t, q, p, n, u, d, r);
      NoDeepRun(t, f, LineBefore(q, p, n, d), LineBefore(q, p, n, r));
    }
  }

  lemma {:induction false} PlainRefresh(t: Text, q: nat, p: nat, n: nat, u: Text, f: nat)
    requires Refreshed(t, q, p, n, u)
    requires f <= |t| && (f <= q || p <= f) && PlainFrom(t, f)
    ensures 0 <= Moved(f, q, p, n)
    ensures PlainFrom(u, Moved(f, q, p, n))
  {
    var g := Moved(f, q, p, n);
    hide Refreshed;
    forall e: nat, r: nat | g <= e && Under(u, e, r)
      ensures u[e].Env() ==> !u[r].Run()
    {
      EnvAfterRefresh(t, q, p, n, u, f, e, r);
    }
    forall d: nat, r: nat | g <= d && Covers(u, d, r)
      ensures u[r].Run() ==> u[r].indent <= u[d].indent + 2
    {
      RunAfterRefresh(t, q, p, n, u, f, d, r);
    }
  }
}
