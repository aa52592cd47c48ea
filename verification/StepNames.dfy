/** Reading a step's name and marking it as run by the CI runner. */
module StepNames {
  import opened PyStrings
  import opened WorkflowLines

  predicate AnchorChar(c: char) { !Space(c) && c != '#' }

  function AnchorRun(s: string): (n: nat)
    ensures n <= |s|
  {
    if s != "" && AnchorChar(s[0]) then 1 + AnchorRun(s[1..]) else 0
  }

  predicate Comment(s: string) {
    var k := LeadingSpaces(s);
    0 < k < |s| && s[k] == '#'
  }

  predicate CommentOrEnd(s: string) { s == "" || Comment(s) }

  /** An optional anchor and an optional comment, and nothing else. */
  predicate IsTrailer(s: string) {
    CommentOrEnd(s) ||
    var k := LeadingSpaces(s);
    k < |s| && s[k] == '&' && AnchorThenComment(s[k + 1..])
  }

  predicate AnchorThenComment(s: string) {
    AnchorRun(s) > 0 && CommentOrEnd(s[AnchorRun(s)..])
  }

  /** The length of the shortest name after which only a trailer follows. */
  function NameEnd(s: string): (n: nat)
    ensures n <= |s| && IsTrailer(s[n..])
    ensures forall i | 0 <= i < n :: !IsTrailer(s[i..])
  {
    if IsTrailer(s) then assert s[0..] == s; 0
    else
      var n := NameEnd(s[1..]);
      assert s[n + 1..] == s[1..][n..];
      assert forall i | 0 < i <= n :: s[i..] == s[1..][i - 1..];
      assert s[0..] == s;
      n + 1
  }

  function LeadingBlanks(s: string): (n: nat)
    ensures n <= |s|
    ensures forall k | 0 <= k < n :: s[k] == ' '
    ensures n < |s| ==> s[n] != ' '
  {
    if s != "" && s[0] == ' ' then 1 + LeadingBlanks(s[1..]) else 0
  }

  /** The length of `name:`, or of `-` followed by it, at the start of the text. */
  function HeaderLength(s: string): (h: Option<nat>)
    ensures h.Some? ==> 5 <= h.value <= |s|
  {
    var k := if s != "" && s[0] == '-' then 1 + LeadingSpaces(s[1..]) else 0;
    if "name:" <= s[k..] then Some(k + 5) else None
  }

  predicate EndsWith(s: string, suffix: string) {
    |suffix| <= |s| && s[|s| - |suffix|..] == suffix
  }

  predicate Quoted(s: string) {
    |s| >= 2 && (s[0] == '\'' || s[0] == '"') && s[|s| - 1] == s[0]
  }

  function MarkName(core: string): (r: string)
  {
    if Quoted(core) then
      var inner := core[1..|core| - 1];
      if EndsWith(inner, RUNNER_STEP_SUFFIX) then core
      else [core[0]] + inner + RUNNER_STEP_SUFFIX + [core[0]]
    else if EndsWith(core, RUNNER_STEP_SUFFIX) then core
    else core + RUNNER_STEP_SUFFIX
  }

  /** Marks the name at the start of `rest`, before any anchor or comment. */
  function MarkRest(rest: string): string {
    var core := Rstrip(rest[..NameEnd(rest)]);
    if core == "" then rest else MarkName(core) + rest[|core|..]
  }

  /** The length of the header and the blanks after it. */
  function HeadLength(s: string): (k: Option<nat>)
    ensures k.Some? ==> 5 <= k.value <= |s|
  {
    match HeaderLength(s)
    case None => None
    case Some(h) => Some(h + LeadingBlanks(s[h..]))
  }

  /** Appends the runner suffix to the name on a name line. */
  function AppendSuffix(s: string): string {
    match HeadLength(s)
    case None => s
    case Some(k) => s[..k] + MarkRest(s[k..])
  }

  // ---------------------------------------------------------------- the suffix is appended once

  lemma {:induction false} SpacesThenMore(a: string, b: string)
    ensures LeadingSpaces(a + b) == if LeadingSpaces(a) < |a| then LeadingSpaces(a) else |a| + LeadingSpaces(b)
  {
    if a == "" {
      assert a + b == b;
    } else {
      assert (a + b)[1..] == a[1..] + b;
      SpacesThenMore(a[1..], b);
    }
  }

  lemma {:induction false} RunThenMore(a: string, b: string)
    ensures AnchorRun(a + b) == if AnchorRun(a) < |a| then AnchorRun(a) else |a| + AnchorRun(b)
  {
    if a == "" {
      assert a + b == b;
    } else {
      assert (a + b)[1..] == a[1..] + b;
      RunThenMore(a[1..], b);
    }
  }

  /** A text that is neither a comment nor an anchor, like the suffix. */
  predicate Opaque(z: string) {
    |z| > 1 && z[0] == ' ' && z[1] != '#' && z[1] != '&' && !Space(z[1])
  }

  lemma {:induction false} OpaqueIsNoTrailer(z: string)
    requires Opaque(z)
    ensures LeadingSpaces(z) == 1 && AnchorRun(z) == 0 && !IsTrailer(z) && !CommentOrEnd(z)
  {
    assert LeadingSpaces(z[1..]) == 0;
  }

  lemma {:induction false} CommentBeforeOpaque(p: string, z: string, w: string)
    requires Opaque(z) && CommentOrEnd(p + z)
    ensures Comment(p + w)
  {
    OpaqueIsNoTrailer(z);
    SpacesThenMore(p, z);
    SpacesThenMore(p, w);
  }

  lemma {:induction false} AnchorBeforeOpaque(p: string, z: string, w: string)
    requires Opaque(z) && AnchorThenComment(p + z)
    ensures AnchorThenComment(p + w)
  {
    OpaqueIsNoTrailer(z);
    RunThenMore(p, z);
    RunThenMore(p, w);
    var m := AnchorRun(p + z);
    assert (p + z)[|p|..] == z;
    assert (p + z)[m..] == p[m..] + z && (p + w)[m..] == p[m..] + w;
    CommentBeforeOpaque(p[m..], z, w);
    SpacesThenMore(p[m..], w);
  }

  /** What makes `p + z` a trailer is in `p`, so it makes every `p + w` one. */
  lemma {:induction false} TrailerBeforeOpaque(p: string, z: string, w: string)
    requires Opaque(z) && IsTrailer(p + z)
    ensures IsTrailer(p + w)
  {
    hide LeadingSpaces, AnchorThenComment, AnchorRun, Comment;
    if CommentOrEnd(p + z) {
      CommentBeforeOpaque(p, z, w);
    } else {
      OpaqueIsNoTrailer(z);
      SpacesThenMore(p, z);
      SpacesThenMore(p, w);
      var k := LeadingSpaces(p + z);
      assert (p + z)[|p| + 1] == z[1];
      assert k < |p|;
      assert (p + z)[k + 1..] == p[k + 1..] + z && (p + w)[k + 1..] == p[k + 1..] + w;
      AnchorBeforeOpaque(p[k + 1..], z, w);
    }
  }

  lemma {:induction false} SuffixIsOpaque(w: string)
    ensures Opaque(RUNNER_STEP_SUFFIX + w)
  {
  }

  predicate NoMark(s: string) { s != "" && s[0] != '#' && s[0] != '&' && !Space(s[0]) }

  lemma {:induction false} SuffixHoldsNoTrailer(i: nat, w: string)
    requires i < |RUNNER_STEP_SUFFIX|
    ensures !IsTrailer(RUNNER_STEP_SUFFIX[i..] + w)
  {
    var s := RUNNER_STEP_SUFFIX[i..] + w;
    if s[0] == ' ' {
      assert i == 0 || i == 5 || i == 8;
      assert Opaque(s);
      OpaqueIsNoTrailer(s);
    } else {
      assert s[0] == RUNNER_STEP_SUFFIX[i];
      NoMarkNoTrailer(s);
    }
  }

  lemma {:induction false} NoMarkNoTrailer(s: string)
    requires NoMark(s)
    ensures !IsTrailer(s)
  {
  }

  lemma {:induction false} QuoteIsNoTrailer(q: string, w: string)
    requires |q| == 1 && (q[0] == '\'' || q[0] == '"')
    ensures !IsTrailer(q + w)
  {
    NoMarkNoTrailer(q + w);
  }

  lemma {:induction false} NoTrailerInMarked(p: string, q: string, w: string, i: nat)
    requires forall j | 0 <= j < |p| :: !IsTrailer((p + q + w)[j..])
    requires q == "" || (|q| == 1 && (q[0] == '\'' || q[0] == '"'))
    requires i < |p + RUNNER_STEP_SUFFIX + q|
    ensures !IsTrailer((p + RUNNER_STEP_SUFFIX + q + w)[i..])
  {
    hide *;
    var s := p + RUNNER_STEP_SUFFIX + q + w;
    var z := RUNNER_STEP_SUFFIX + (q + w);
    if i < |p| {
      assert s[i..] == p[i..] + z;
      assert (p + q + w)[i..] == p[i..] + (q + w);
      SuffixIsOpaque(q + w);
      if IsTrailer(s[i..]) {
        TrailerBeforeOpaque(p[i..], z, q + w);
      }
    } else if i < |p| + |RUNNER_STEP_SUFFIX| {
      assert s[i..] == RUNNER_STEP_SUFFIX[i - |p|..] + (q + w);
      SuffixHoldsNoTrailer(i - |p|, q + w);
    } else {
      assert s[i..] == q + w;
      QuoteIsNoTrailer(q, w);
    }
  }

  /** Marking a name splits it around the suffix, and a marked name is left alone. */
  lemma {:induction false} MarkedName(core: string) returns (p: string, q: string)
    requires core != "" && MarkName(core) != core
    ensures core == p + q && MarkName(core) == p + RUNNER_STEP_SUFFIX + q
    ensures q == "" || (|q| == 1 && (q[0] == '\'' || q[0] == '"'))
    ensures MarkName(MarkName(core)) == MarkName(core)
    ensures p != "" && !Space(MarkName(core)[|MarkName(core)| - 1])
  {
    var m := MarkName(core);
    if Quoted(core) {
      var inner := core[1..|core| - 1];
      p, q := core[..|core| - 1], [core[0]];
      assert p == [core[0]] + inner;
      assert m[1..|m| - 1] == inner + RUNNER_STEP_SUFFIX;
    } else {
      p, q := core, "";
      assert m == p + RUNNER_STEP_SUFFIX + q;
      assert m[|m| - 1] == ')';
    }
  }

  lemma {:induction false} NameEndIs(s: string, n: nat)
    requires n <= |s| && IsTrailer(s[n..]) && forall i | 0 <= i < n :: !IsTrailer(s[i..])
    ensures NameEnd(s) == n
  {
    assert !(NameEnd(s) < n);
  }

  lemma {:induction false} LeadingBlanksIs(s: string, n: nat)
    requires n <= |s| && (forall k | 0 <= k < n :: s[k] == ' ') && (n < |s| ==> s[n] != ' ')
    ensures LeadingBlanks(s) == n
  {
    assert !(LeadingBlanks(s) < n) && !(n < LeadingBlanks(s));
  }

  /** After marking, the name still ends where only a trailer follows. */
  lemma {:induction false} RereadEnd(p: string, q: string, trail: string, w: string)
    requires q == "" || (|q| == 1 && (q[0] == '\'' || q[0] == '"'))
    requires IsTrailer(w)
    requires forall i | 0 <= i < |p| + |q| + |trail| :: !IsTrailer((p + q + (trail + w))[i..])
    ensures NameEnd((p + RUNNER_STEP_SUFFIX + q) + (trail + w)) == |p + RUNNER_STEP_SUFFIX + q| + |trail|
  {
    hide IsTrailer, NameEnd;
    var m := p + RUNNER_STEP_SUFFIX + q;
    var again := m + (trail + w);
    var e := |m| + |trail|;
    assert again[e..] == w;
    forall i | 0 <= i < e
      ensures !IsTrailer(again[i..])
    {
      if i < |m| {
        NoTrailerInMarked(p, q, trail + w, i);
      } else {
        assert again[i..] == (p + q + (trail + w))[i - |RUNNER_STEP_SUFFIX|..];
      }
    }
    NameEndIs(again, e);
  }

  /** The core name, the spaces after it, and the trailer. */
  lemma {:induction false} NameSplits(rest: string) returns (core: string, trail: string, w: string)
    ensures core == Rstrip(rest[..NameEnd(rest)]) && rest == core + (trail + w)
    ensures core != "" ==> !Space(core[|core| - 1])
    ensures AllSpaces(trail)
    ensures NameEnd(rest) == |core| + |trail| && IsTrailer(w)
  {
    hide NameEnd, Rstrip, IsTrailer;
    var n := NameEnd(rest);
    var raw := rest[..n];
    core := Rstrip(raw);
    trail, w := raw[|core|..], rest[n..];
    assert raw == core + trail && rest == raw + w;
  }

  /** The marked name with what followed the name: reading it again finds the marked name. */
  lemma {:induction false} RereadMarked(m: string, trail: string, w: string)
    requires m != "" && !Space(m[|m| - 1]) && AllSpaces(trail) && MarkName(m) == m
    requires NameEnd(m + (trail + w)) == |m| + |trail|
    ensures MarkRest(m + (trail + w)) == m + (trail + w)
  {
    var again := m + (trail + w);
    assert again[..|m| + |trail|] == m + trail;
    RstripIs(m, trail);
    assert Rstrip(again[..NameEnd(again)]) == m;
    assert again[|m|..] == trail + w;
    assert MarkRest(again) == MarkName(m) + again[|m|..];
  }

  lemma {:induction false} MarkRestOnce(rest: string)
    ensures MarkRest(MarkRest(rest)) == MarkRest(rest)
    ensures rest != "" ==> MarkRest(rest) != "" && MarkRest(rest)[0] == rest[0]
  {
    var core, trail, w := NameSplits(rest);
    if core != "" && MarkName(core) != core {
      var p, q := MarkedName(core);
      assert rest[|core|..] == trail + w;
      RereadEnd(p, q, trail, w);
      RereadMarked(MarkName(core), trail, w);
    }
  }

  lemma {:induction false} SameHeader(s: string, t: string)
    requires HeaderLength(s).Some? && HeaderLength(s).value <= |t|
    requires s[..HeaderLength(s).value] == t[..HeaderLength(s).value]
    ensures HeaderLength(t) == HeaderLength(s)
  {
    hide LeadingSpaces;
    var h := HeaderLength(s).value;
    assert forall i | 0 <= i < h :: s[i] == s[..h][i] == t[i];
    var k := h - 5;
    assert s[k..][..5] == "name:";
    assert t[k..][..5] == s[k..h];
    assert s[k] == 'n';
    if s[0] == '-' {
      var a, b := s[1..k], s[k..];
      assert s[1..] == a + b && t[1..] == a + t[k..];
      SpacesThenMore(a, b);
      SpacesThenMore(a, t[k..]);
      assert t[k] == 'n';
    }
  }

  lemma {:induction false} SameHead(s: string, r: string)
    requires HeadLength(s).Some?
    requires r == "" <==> s[HeadLength(s).value..] == ""
    requires r != "" ==> r[0] == s[HeadLength(s).value]
    ensures HeadLength(s[..HeadLength(s).value] + r) == HeadLength(s)
  {
    var h, k := HeaderLength(s).value, HeadLength(s).value;
    var u := s[..k] + r;
    assert u[..h] == s[..h];
    SameHeader(s, u);
    assert u[h..][..k - h] == s[h..][..k - h];
    LeadingBlanksIs(u[h..], k - h);
  }

  /** The suffix is appended at most once: rewriting a name line again changes nothing. */
  lemma {:induction false} AppendSuffixOnce(s: string)
    ensures AppendSuffix(AppendSuffix(s)) == AppendSuffix(s)
  {
    if HeadLength(s).Some? {
      var k := HeadLength(s).value;
      var r := MarkRest(s[k..]);
      MarkRestOnce(s[k..]);
      assert s[k..] == "" ==> r == "";
      SameHead(s, r);
      assert (s[..k] + r)[k..] == r && (s[..k] + r)[..k] == s[..k];
    }
  }

  /** The suffix leaves the key of the line in place. */
  lemma {:induction false} AppendSuffixKeepsKey(s: string)
    ensures AppendSuffix(s) == s || (5 <= |AppendSuffix(s)| && 5 <= |s| && AppendSuffix(s)[..5] == s[..5])
  {
  }

  // ---------------------------------------------------------------- a marked line runs what it ran

  /** What can follow a name: nothing, a quote, an anchor, or a blank before a blank, an anchor or a comment. */
  predicate AfterName(z: string) {
    z != "" ==>
      || z[0] == '\'' || z[0] == '"' || z[0] == '&'
      || (Space(z[0]) && (|z| > 1 ==> Space(z[1]) || z[1] == '#' || z[1] == '&'))
  }

  lemma {:induction false} TrailerFollowsName(trail: string, w: string)
    requires AllSpaces(trail) && IsTrailer(w)
    ensures AfterName(trail + w)
  {
    var z := trail + w;
    assert w != "" ==> Space(w[0]) || w[0] == '&';
    if |trail| > 1 {
      assert z[0] == trail[0] && z[1] == trail[1];
    } else if |trail| == 1 && w != "" {
      assert z[0] == trail[0] && z[1] == w[0];
    } else {
      assert trail == "" ==> z == w;
      CommentFollowsBlank(w);
    }
  }

  lemma {:induction false} CommentFollowsBlank(w: string)
    requires IsTrailer(w)
    ensures AfterName(w)
  {
    hide AnchorThenComment;
    if w != "" && Space(w[0]) && |w| > 1 {
      var k := LeadingSpaces(w);
      assert k == 1 + LeadingSpaces(w[1..]);
      assert k == 1 || Space(w[1..][0]);
    }
  }

  lemma {:induction false} QuoteFollowsName(q: string, z: string)
    requires q == "" || (|q| == 1 && (q[0] == '\'' || q[0] == '"'))
    requires AfterName(z)
    ensures AfterName(q + z)
  {
    assert q == "" ==> q + z == z;
  }

  lemma {:induction false} Regroup(h: string, p: string, q: string, t: string, x: string)
    ensures h + (p + q + t) == (h + p) + (q + t)
    ensures h + (p + x + q + t) == (h + p) + x + (q + t)
  {
  }

  lemma {:induction false} AppendSuffixParts(s: string)
    ensures AppendSuffix(s) == match HeadLength(s) case None => s case Some(k) => s[..k] + MarkRest(s[k..])
  {
    hide MarkRest, HeadLength;
  }

  lemma {:induction false} MarkRestParts(rest: string, core: string, trail: string, w: string)
    requires core == Rstrip(rest[..NameEnd(rest)]) && rest == core + (trail + w)
    ensures MarkRest(rest) == if core == "" then rest else MarkName(core) + (trail + w)
  {
    hide MarkName, NameEnd, Rstrip;
    assert rest[|core|..] == trail + w;
  }

  /** Marking a line puts the suffix behind its name, or changes nothing. */
  lemma {:induction false} MarkedSplit(s: string) returns (a: string, z: string)
    requires AppendSuffix(s) != s
    ensures s == a + z && AppendSuffix(s) == a + RUNNER_STEP_SUFFIX + z && AfterName(z)
  {
    hide *;
    AppendSuffixParts(s);
    var k := HeadLength(s).value;
    var rest := s[k..];
    var core, trail, w := NameSplits(rest);
    MarkRestParts(rest, core, trail, w);
    assert s == s[..k] + rest;
    var p, q := MarkedName(core);
    a, z := s[..k] + p, q + (trail + w);
    Regroup(s[..k], p, q, trail + w, RUNNER_STEP_SUFFIX);
    TrailerFollowsName(trail, w);
    QuoteFollowsName(q, trail + w);
  }

  /** Words do not cross from a text to one that starts with no word character. */
  lemma {:induction false} WordsApart(a: string, z: string)
    requires z != "" ==> !WordChar(z[0])
    ensures HasPytestWord(a + z) <==> HasPytestWord(a) || HasPytestWord(z)
  {
    var s := a + z;
    assert z != "" ==> s[|a|] == z[0];
    forall i: nat | i < |s| && PytestWordAt(s, i)
      ensures HasPytestWord(a) || HasPytestWord(z)
    {
      assert forall k | i <= k < i + 6 :: WordChar(s[k]);
      if i < |a| {
        assert forall k | i <= k < i + 6 :: s[k] == a[k];
        assert i > 0 ==> s[i - 1] == a[i - 1];
        assert i + 6 < |a| ==> s[i + 6] == a[i + 6];
        assert PytestWordAt(a, i);
      } else {
        var j := i - |a|;
        assert forall k | i <= k < i + 6 :: s[k] == z[k - |a|];
        assert j > 0 ==> s[i - 1] == z[j - 1];
        assert i + 6 < |s| ==> s[i + 6] == z[j + 6];
        assert PytestWordAt(z, j);
      }
    }
    if HasPytestWord(a) {
      var i: nat :| i < |a| && PytestWordAt(a, i);
      assert forall k | 0 <= k < |a| :: s[k] == a[k];
      assert i + 6 == |a| && z != "" ==> s[i + 6] == z[0];
      assert PytestWordAt(s, i);
    }
    if HasPytestWord(z) {
      var j: nat :| j < |z| && PytestWordAt(z, j);
      assert forall k | 0 <= k < |z| :: s[|a| + k] == z[k];
      assert j > 0;
      assert s[|a| + j - 1] == z[j - 1];
      assert PytestWordAt(s, |a| + j);
    }
  }

  /** No part of `pattern` but the whole can end at the start of `z`. */
  predicate Apart(pattern: string, z: string) {
    z != "" ==> forall k: nat | 0 < k < |pattern| ::
      Lower(z[0]) == pattern[k] ==> k + 1 < |pattern| && (|z| > 1 ==> Lower(z[1]) != pattern[k + 1])
  }

  lemma {:induction false} SameOccurrence(s: string, t: string, pattern: string, i: nat, j: nat)
    requires OccursAt(s, pattern, i) && j + |pattern| <= |t| && s[i..i + |pattern|] == t[j..j + |pattern|]
    ensures OccursAt(t, pattern, j)
  {
    forall k: nat | k < |pattern|
      ensures Lower(t[j + k]) == pattern[k]
    {
      assert t[j + k] == t[j..j + |pattern|][k] == s[i..i + |pattern|][k] == s[i + k];
    }
  }

  lemma {:induction false} NoneAcross(a: string, z: string, pattern: string, i: nat)
    requires pattern != "" && Apart(pattern, z) && i < |a| && OccursAt(a + z, pattern, i)
    ensures i + |pattern| <= |a|
  {
    var s := a + z;
    forall j: nat | i <= j < i + |pattern|
      ensures Lower(s[j]) == pattern[j - i]
    {
      assert Lower(s[i + (j - i)]) == pattern[j - i];
    }
    assert z != "" ==> s[|a|] == z[0];
    assert |z| > 1 ==> s[|a| + 1] == z[1];
  }

  lemma {:induction false} MentionsApart(a: string, z: string, pattern: string)
    requires pattern != "" && Apart(pattern, z)
    ensures Mentions(a + z, pattern) <==> Mentions(a, pattern) || Mentions(z, pattern)
  {
    var s, n := a + z, |pattern|;
    forall i: nat | i <= |s| && OccursAt(s, pattern, i)
      ensures Mentions(a, pattern) || Mentions(z, pattern)
    {
      if |a| <= i {
        SameOccurrence(s, z, pattern, i, i - |a|);
      } else {
        NoneAcross(a, z, pattern, i);
        SameOccurrence(s, a, pattern, i, i);
      }
    }
    if Mentions(a, pattern) {
      var i: nat :| i <= |a| && OccursAt(a, pattern, i);
      SameOccurrence(a, s, pattern, i, i);
    }
    if Mentions(z, pattern) {
      var i: nat :| i <= |z| && OccursAt(z, pattern, i);
      SameOccurrence(z, s, pattern, i, |a| + i);
    }
  }

  lemma {:induction false} InstallerApart(z: string, pattern: string)
    requires AfterName(z)
    requires pattern == "pip install" || pattern == "pip3 install" || pattern == "pipenv install"
    ensures Apart(pattern, z)
  {
    if z != "" {
      forall k: nat | 0 < k < |pattern| && Lower(z[0]) == pattern[k]
        ensures k + 1 < |pattern| && (|z| > 1 ==> Lower(z[1]) != pattern[k + 1])
      {
        assert z[0] == ' ' && pattern[k + 1] == 'i';
      }
    }
  }

  lemma {:induction false} SuffixApart(pattern: string, z: string)
    requires pattern == "pip install" || pattern == "pip3 install" || pattern == "pipenv install"
    ensures Apart(pattern, RUNNER_STEP_SUFFIX + z) && !Mentions(RUNNER_STEP_SUFFIX, pattern)
  {
    var w := RUNNER_STEP_SUFFIX + z;
    assert w[0] == ' ' && w[1] == '(';
    forall i: nat | i <= |RUNNER_STEP_SUFFIX|
      ensures !OccursAt(RUNNER_STEP_SUFFIX, pattern, i)
    {
      assert pattern[0] == 'p';
    }
  }

  lemma {:induction false} SuffixMentionsNothing(a: string, z: string, pattern: string)
    requires AfterName(z)
    requires pattern == "pip install" || pattern == "pip3 install" || pattern == "pipenv install"
    ensures Mentions(a + RUNNER_STEP_SUFFIX + z, pattern) <==> Mentions(a + z, pattern)
  {
    assert a + RUNNER_STEP_SUFFIX + z == a + (RUNNER_STEP_SUFFIX + z);
    InstallerApart(z, pattern);
    SuffixApart(pattern, z);
    hide Mentions, Apart, RUNNER_STEP_SUFFIX, AfterName;
    assert pattern != "";
    MentionsApart(a, z, pattern);
    MentionsApart(RUNNER_STEP_SUFFIX, z, pattern);
    MentionsApart(a, RUNNER_STEP_SUFFIX + z, pattern);
  }

  lemma {:induction false} SuffixHasNoWord(z: string)
    ensures !HasPytestWord(RUNNER_STEP_SUFFIX) && !WordChar((RUNNER_STEP_SUFFIX + z)[0])
  {
    assert NoLetterY(RUNNER_STEP_SUFFIX);
  }

  lemma {:induction false} AfterNameIsNoWord(z: string)
    requires AfterName(z)
    ensures z != "" ==> !WordChar(z[0])
  {
  }

  lemma {:induction false} SuffixIsQuiet(a: string, z: string)
    requires AfterName(z)
    ensures RunsPytest(a + RUNNER_STEP_SUFFIX + z) == RunsPytest(a + z)
  {
    SuffixHasNoWord(z);
    SuffixMentionsNothing(a, z, "pip install");
    SuffixMentionsNothing(a, z, "pip3 install");
    SuffixMentionsNothing(a, z, "pipenv install");
    AfterNameIsNoWord(z);
    hide HasPytestWord, Mentions, RUNNER_STEP_SUFFIX, AfterName, WordChar;
    assert a + RUNNER_STEP_SUFFIX + z == a + (RUNNER_STEP_SUFFIX + z);
    WordsApart(a, z);
    WordsApart(RUNNER_STEP_SUFFIX, z);
    WordsApart(a, RUNNER_STEP_SUFFIX + z);
  }

  /** Marking a line never changes whether it runs pytest. */
  lemma {:induction false} SuffixKeepsPytest(s: string)
    ensures RunsPytest(AppendSuffix(s)) == RunsPytest(s)
  {
    hide *;
    if AppendSuffix(s) != s {
      var a, z := MarkedSplit(s);
      SuffixIsQuiet(a, z);
    }
  }

  // ---------------------------------------------------------------- reading a name

  function CutComment(s: string): string {
    if s == "" || Comment(s) then "" else [s[0]] + CutComment(s[1..])
  }

  predicate AtAnchor(s: string) {
    LeadingSpaces(s) < |s| && s[LeadingSpaces(s)] == '&'
  }

  function CutAnchor(s: string): string {
    if s == "" || AtAnchor(s) then "" else [s[0]] + CutAnchor(s[1..])
  }

  /** The value of a name line, without comment, anchor and quotes. */
  function NameValue(s: string): Option<string> {
    match HeaderLength(s)
    case None => None
    case Some(h) => Some(Unquote(Strip(CutAnchor(CutComment(Lstrip(s[h..]))))))
  }
}
