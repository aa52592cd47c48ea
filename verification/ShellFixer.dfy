/** Replacing shell calls in a source file: the calls are collected from the syntax tree and replaced from the right. */
module ShellFixer {
  import opened PyStrings
  import opened TextEdits

  // ---------------------------------------------------------------- places in the text

  /** The offset at which each line starts, and the length of the text at the end. */
  method LineOffsets(lines: seq<string>) returns (offsets: seq<nat>)
    ensures |offsets| == |lines| + 1 && forall k | 0 <= k <= |lines| :: offsets[k] == |Concat(lines[..k])|
  {
    offsets := [0];
    for i := 0 to |lines|
      invariant |offsets| == i + 1 && forall k | 0 <= k <= i :: offsets[k] == |Concat(lines[..k])|
    {
      assert lines[..i + 1] == lines[..i] + [lines[i]];
      ConcatAppend(lines[..i], lines[i]);
      offsets := offsets + [offsets[i] + |lines[i]|];
    }
  }

  lemma {:induction false} ConcatAppend(lines: seq<string>, l: string)
    ensures Concat(lines + [l]) == Concat(lines) + l
  {
    if lines == [] {
      assert [] + [l] == [l] && [l][1..] == [];
    } else {
      assert (lines + [l])[1..] == lines[1..] + [l];
      ConcatAppend(lines[1..], l);
    }
  }

  /** Column `col` of line `k` is the character of the text at the offset of the line plus `col`. */
  lemma {:induction false} PlaceInText(lines: seq<string>, k: nat, col: nat)
    requires k < |lines| && col < |lines[k]|
    ensures |Concat(lines[..k])| + col < |Concat(lines)| && Concat(lines)[|Concat(lines[..k])| + col] == lines[k][col]
    decreases |lines|
  {
    if k > 0 {
      PlaceInText(lines[1..], k - 1, col);
      assert lines[..k][1..] == lines[1..][..k - 1];
    }
  }

  /** A place as the parser reports it: the line, counted from one, and the column. */
  datatype Place = Place(line: nat, col: nat)

  /** The place is on a line of the text, or at its end. */
  predicate OnLine(lines: seq<string>, p: Place) { 1 <= p.line <= |lines| && p.col <= |lines[p.line - 1]| }

  predicate NotAfter(p: Place, q: Place) { p.line < q.line || (p.line == q.line && p.col <= q.col) }

  function Offset(lines: seq<string>, p: Place): nat
    requires OnLine(lines, p)
  {
    |Concat(lines[..p.line - 1])| + p.col
  }

  lemma {:induction false} LineEnds(lines: seq<string>, k: nat)
    requires k < |lines|
    ensures |Concat(lines[..k + 1])| == |Concat(lines[..k])| + |lines[k]|
  {
    assert lines[..k + 1] == lines[..k] + [lines[k]];
    ConcatAppend(lines[..k], lines[k]);
  }

  lemma {:induction false} LinesGrow(lines: seq<string>, i: nat, k: nat)
    requires i <= k <= |lines|
    ensures |Concat(lines[..i])| <= |Concat(lines[..k])|
    decreases k - i
  {
    if i < k {
      LinesGrow(lines, i, k - 1);
      LineEnds(lines, k - 1);
    }
  }

  /** Places that follow each other in the text have offsets that do; a place at a character has a smaller offset than
      any later place. */
  lemma {:induction false} OffsetsOrdered(lines: seq<string>, p: Place, q: Place)
    requires OnLine(lines, p) && OnLine(lines, q) && NotAfter(p, q)
    ensures Offset(lines, p) <= Offset(lines, q) <= |Concat(lines)|
    ensures p != q && p.col < |lines[p.line - 1]| ==> Offset(lines, p) < Offset(lines, q)
  {
    hide Concat;
    assert lines[..|lines|] == lines;
    LineEnds(lines, q.line - 1);
    LinesGrow(lines, q.line, |lines|);
    if p.line < q.line {
      LineEnds(lines, p.line - 1);
      LinesGrow(lines, p.line, q.line - 1);
    }
  }

  // ---------------------------------------------------------------- the syntax tree

  /** A node with the stretch of text it takes up; `fix` is the text that should replace a call. */
  datatype Node = Node(start: Place, end: Place, call: bool, fix: Option<string>, children: seq<Node>)

  predicate NoOverlap(a: Node, b: Node) { NotAfter(a.end, b.start) || NotAfter(b.end, a.start) }

  /** Children lie inside their parent and do not overlap; calls take up some text. */
  ghost predicate WellNested(lines: seq<string>, n: Node) {
    && OnLine(lines, n.start) && OnLine(lines, n.end) && NotAfter(n.start, n.end)
    && (n.call ==> n.start != n.end && n.start.col < |lines[n.start.line - 1]|)
    && (forall k | 0 <= k < |n.children| ::
          && NotAfter(n.start, n.children[k].start) && NotAfter(n.children[k].end, n.end)
          && WellNested(lines, n.children[k]))
    && (forall j, k | 0 <= j < k < |n.children| :: NoOverlap(n.children[j], n.children[k]))
  }

  /** The replacement of a call. */
  function Fixed(lines: seq<string>, n: Node): Edit
    requires OnLine(lines, n.start) && OnLine(lines, n.end) && n.fix.Some?
  {
    Edit(Offset(lines, n.start), Offset(lines, n.end), n.fix.value)
  }

  /** The replacements under a node; what is inside a call is not looked at. */
  function Collected(lines: seq<string>, n: Node): seq<Edit>
    requires WellNested(lines, n)
    decreases n
  {
    if n.call then if n.fix.Some? then [Fixed(lines, n)] else []
    else CollectedFrom(lines, n, 0)
  }

  function CollectedFrom(lines: seq<string>, n: Node, i: nat): seq<Edit>
    requires WellNested(lines, n) && i <= |n.children|
    decreases n, |n.children| - i
  {
    if i == |n.children| then [] else Collected(lines, n.children[i]) + CollectedFrom(lines, n, i + 1)
  }

  // ---------------------------------------------------------------- every call outside a call is replaced

  /** The node reached by going down to the children of these indices, through nodes that are no calls. */
  ghost function NodeAt(n: Node, path: seq<nat>): Option<Node> {
    if path == [] then Some(n)
    else if n.call || |n.children| <= path[0] then None
    else NodeAt(n.children[path[0]], path[1..])
  }

  /** A call that is to be replaced, and that stands in no other call. */
  ghost predicate ToFix(n: Node, path: seq<nat>) {
    var c := NodeAt(n, path); c.Some? && c.value.call && c.value.fix.Some?
  }

  /** The edit replaces the call at the path. */
  ghost predicate Replaces(lines: seq<string>, n: Node, path: seq<nat>, e: Edit) {
    && ToFix(n, path)
    && var c := NodeAt(n, path).value;
       && OnLine(lines, c.start) && OnLine(lines, c.end)
       && e == Edit(Offset(lines, c.start), Offset(lines, c.end), c.fix.value)
  }

  /** The edits replace, one for one, the calls to be fixed. */
  ghost predicate OneForOne(lines: seq<string>, n: Node, edits: seq<Edit>, paths: seq<seq<nat>>) {
    && |paths| == |edits|
    && (forall k | 0 <= k < |paths| :: Replaces(lines, n, paths[k], edits[k]))
    && (forall j, k | 0 <= j < k < |paths| :: paths[j] != paths[k])
    && (forall path | ToFix(n, path) :: path in paths)
  }

  /** The same for the calls below the children from `i` on. */
  ghost predicate OneForOneFrom(lines: seq<string>, n: Node, i: nat, edits: seq<Edit>, paths: seq<seq<nat>>) {
    && |paths| == |edits|
    && (forall k | 0 <= k < |paths| :: Replaces(lines, n, paths[k], edits[k]) && paths[k] != [] && i <= paths[k][0])
    && (forall j, k | 0 <= j < k < |paths| :: paths[j] != paths[k])
    && (forall path | ToFix(n, path) && path != [] && i <= path[0] :: path in paths)
  }

  function Below(i: nat, paths: seq<seq<nat>>): (r: seq<seq<nat>>)
    ensures |r| == |paths| && forall k | 0 <= k < |r| :: r[k] == [i] + paths[k]
  {
    seq(|paths|, k requires 0 <= k < |paths| => [i] + paths[k])
  }

  lemma {:induction false} DownOne(n: Node, i: nat, path: seq<nat>)
    requires !n.call && i < |n.children|
    ensures NodeAt(n, [i] + path) == NodeAt(n.children[i], path)
  {
    assert ([i] + path)[1..] == path;
  }

  lemma {:induction false} ToFixBelow(n: Node, path: seq<nat>)
    requires ToFix(n, path) && path != []
    ensures !n.call && path[0] < |n.children| && ToFix(n.children[path[0]], path[1..]) && path == [path[0]] + path[1..]
  {
  }

  lemma {:induction false} CollectedCalls(lines: seq<string>, n: Node) returns (paths: seq<seq<nat>>)
    requires WellNested(lines, n)
    ensures OneForOne(lines, n, Collected(lines, n), paths)
    decreases n
  {
    hide Offset, OnLine, NotAfter;
    if n.call {
      forall path | ToFix(n, path)
        ensures path == []
      {
      }
      if n.fix.Some? {
        paths := [[]];
        assert ToFix(n, []);
      } else {
        paths := [];
      }
    } else {
      paths := CollectedCallsFrom(lines, n, 0);
    }
  }

  lemma {:induction false} CollectedCallsFrom(lines: seq<string>, n: Node, i: nat) returns (paths: seq<seq<nat>>)
    requires WellNested(lines, n) && i <= |n.children| && !n.call
    ensures OneForOneFrom(lines, n, i, CollectedFrom(lines, n, i), paths)
    decreases n, |n.children| - i, 0
  {
    if i == |n.children| {
      paths := [];
      forall path | ToFix(n, path) && path != [] && i <= path[0]
        ensures false
      {
        ToFixBelow(n, path);
      }
    } else {
      var mine := CollectedCalls(lines, n.children[i]);
      var rest := CollectedCallsFrom(lines, n, i + 1);
      paths := Below(i, mine) + rest;
      JoinCalls(lines, n, i, Collected(lines, n.children[i]), mine, CollectedFrom(lines, n, i + 1), rest);
    }
  }

  lemma {:induction false} ReplacesBelow(lines: seq<string>, n: Node, i: nat, path: seq<nat>, e: Edit)
    requires !n.call && i < |n.children| && Replaces(lines, n.children[i], path, e)
    ensures Replaces(lines, n, [i] + path, e)
  {
    hide Offset, OnLine, NodeAt;
    DownOne(n, i, path);
  }

  lemma {:induction false} JoinCalls(lines: seq<string>, n: Node, i: nat, x: seq<Edit>, mine: seq<seq<nat>>,
                                     y: seq<Edit>, rest: seq<seq<nat>>)
    requires !n.call && i < |n.children| && OneForOne(lines, n.children[i], x, mine)
    requires OneForOneFrom(lines, n, i + 1, y, rest)
    ensures OneForOneFrom(lines, n, i, x + y, Below(i, mine) + rest)
  {
    hide Replaces, ToFix;
    var paths := Below(i, mine) + rest;
    forall k | 0 <= k < |paths|
      ensures Replaces(lines, n, paths[k], (x + y)[k]) && paths[k] != [] && i <= paths[k][0]
    {
      if k < |mine| {
        ReplacesBelow(lines, n, i, mine[k], x[k]);
      }
    }
    forall j, k | 0 <= j < k < |paths|
      ensures paths[j] != paths[k]
    {
      if k < |mine| {
        assert paths[j][1..] == mine[j] && paths[k][1..] == mine[k];
      } else if j < |mine| {
        assert paths[j][0] == i && i + 1 <= rest[k - |mine|][0];
      }
    }
    forall path | ToFix(n, path) && path != [] && i <= path[0]
      ensures path in paths
    {
      ToFixBelow(n, path);
      if path[0] == i {
        var k :| 0 <= k < |mine| && mine[k] == path[1..];
        assert paths[k] == path;
      } else {
        var k :| 0 <= k < |rest| && rest[k] == path;
        assert paths[|mine| + k] == path;
      }
    }
  }

  ghost predicate IsTable(lines: seq<string>, offsets: seq<nat>) {
    |offsets| == |lines| + 1 && forall k | 0 <= k <= |lines| :: offsets[k] == |Concat(lines[..k])|
  }

  /** Collects the replacements, with the places of the tree turned into offsets by the table. */
  method Visit(ghost lines: seq<string>, offsets: seq<nat>, n: Node, found: seq<Edit>) returns (r: seq<Edit>)
    requires WellNested(lines, n) && IsTable(lines, offsets)
    ensures r == found + Collected(lines, n)
    decreases n
  {
    if n.call {
      if n.fix.None? {
        return found;
      }
      var start := offsets[n.start.line - 1] + n.start.col;
      var end := offsets[n.end.line - 1] + n.end.col;
      return found + [Edit(start, end, n.fix.value)];
    }
    r := found;
    for i := 0 to |n.children|
      invariant r + CollectedFrom(lines, n, i) == found + Collected(lines, n)
    {
      r := Visit(lines, offsets, n.children[i], r);
    }
  }

  ghost predicate Between(edits: seq<Edit>, a: nat, b: nat) {
    forall k | 0 <= k < |edits| :: a <= edits[k].start < edits[k].end <= b
  }

  lemma {:induction false} BetweenSum(x: seq<Edit>, y: seq<Edit>, a: nat, b: nat)
    requires Between(x, a, b) && Between(y, a, b)
    ensures Between(x + y, a, b)
  {
  }

  /** Edits of nodes that do not overlap are apart. */
  lemma {:induction false} ApartSum(x: seq<Edit>, y: seq<Edit>)
    requires Disjoint(x) && Disjoint(y)
    requires forall j, k | 0 <= j < |x| && 0 <= k < |y| :: Apart(x[j], y[k])
    ensures Disjoint(x + y)
  {
    hide Apart;
  }

  /** The replacements under a node lie inside it and are pairwise disjoint. */
  lemma {:induction false} CollectedApart(lines: seq<string>, n: Node)
    requires WellNested(lines, n)
    ensures Between(Collected(lines, n), Offset(lines, n.start), Offset(lines, n.end)) && Disjoint(Collected(lines, n))
    decreases n
  {
    hide Offset, OnLine, NotAfter;
    if n.call {
      OffsetsOrdered(lines, n.start, n.end);
    } else {
      CollectedFromApart(lines, n, 0);
    }
  }

  /** All edits lie before the offset, or all behind it. */
  ghost predicate Aside(edits: seq<Edit>, start: nat, end: nat) {
    forall k | 0 <= k < |edits| :: edits[k].end <= start || end <= edits[k].start
  }

  lemma {:induction false} InsideIsAside(lines: seq<string>, c: Node, d: Node, edits: seq<Edit>)
    requires OnLine(lines, c.start) && OnLine(lines, c.end) && OnLine(lines, d.start) && OnLine(lines, d.end)
    requires NoOverlap(c, d)
    requires Between(edits, Offset(lines, d.start), Offset(lines, d.end))
    ensures Aside(edits, Offset(lines, c.start), Offset(lines, c.end))
  {
    hide Offset, OnLine;
    if NotAfter(c.end, d.start) {
      OffsetsOrdered(lines, c.end, d.start);
    } else {
      OffsetsOrdered(lines, d.end, c.start);
    }
  }

  lemma {:induction false} AsideSum(x: seq<Edit>, y: seq<Edit>, start: nat, end: nat)
    requires Aside(x, start, end) && Aside(y, start, end)
    ensures Aside(x + y, start, end)
  {
  }

  lemma {:induction false} AsideApart(x: seq<Edit>, y: seq<Edit>, start: nat, end: nat, a: nat, b: nat)
    requires Between(x, start, end) && Aside(y, start, end) && Between(y, a, b)
    ensures forall j, k | 0 <= j < |x| && 0 <= k < |y| :: Apart(x[j], y[k])
  {
    forall j, k | 0 <= j < |x| && 0 <= k < |y|
      ensures Apart(x[j], y[k])
    {
      assert start <= x[j].start < x[j].end <= end;
      assert y[k].start < y[k].end && (y[k].end <= start || end <= y[k].start);
    }
  }

  lemma {:induction false} BetweenWider(x: seq<Edit>, a: nat, b: nat, c: nat, d: nat)
    requires Between(x, a, b) && c <= a && b <= d
    ensures Between(x, c, d)
  {
  }

  lemma {:induction false} ChildForm(lines: seq<string>, n: Node, i: nat)
    requires WellNested(lines, n) && i < |n.children|
    ensures var c := n.children[i];
            && WellNested(lines, c) && OnLine(lines, c.start) && OnLine(lines, c.end) && OnLine(lines, n.start)
               && OnLine(lines, n.end)
            && NotAfter(n.start, c.start) && NotAfter(c.end, n.end)
    ensures forall k | i < k < |n.children| :: NoOverlap(n.children[i], n.children[k])
  {
    hide OnLine, NotAfter;
  }

  lemma {:induction false} CollectedFromApart(lines: seq<string>, n: Node, i: nat)
    requires WellNested(lines, n) && i <= |n.children|
    ensures OnLine(lines, n.start) && OnLine(lines, n.end)
    ensures Between(CollectedFrom(lines, n, i), Offset(lines, n.start), Offset(lines, n.end))
    ensures Disjoint(CollectedFrom(lines, n, i))
    decreases n, |n.children| - i, 0
  {
    if i < |n.children| {
      var c, x, y := n.children[i], Collected(lines, n.children[i]), CollectedFrom(lines, n, i + 1);
      CollectedApart(lines, c);
      CollectedFromApart(lines, n, i + 1);
      ChildForm(lines, n, i);
      RestAside(lines, n, c, i + 1);
      hide *;
      OffsetsOrdered(lines, n.start, c.start);
      OffsetsOrdered(lines, c.end, n.end);
      AsideApart(x, y, Offset(lines, c.start), Offset(lines, c.end), Offset(lines, n.start), Offset(lines, n.end));
      ApartSum(x, y);
      BetweenWider(x, Offset(lines, c.start), Offset(lines, c.end), Offset(lines, n.start), Offset(lines, n.end));
      BetweenSum(x, y, Offset(lines, n.start), Offset(lines, n.end));
    }
  }

  /** What is collected under children that do not overlap `c` lies beside it. */
  lemma {:induction false} RestAside(lines: seq<string>, n: Node, c: Node, i: nat)
    requires WellNested(lines, n) && i <= |n.children| && OnLine(lines, c.start) && OnLine(lines, c.end)
    requires forall k | i <= k < |n.children| :: NoOverlap(c, n.children[k])
    ensures Aside(CollectedFrom(lines, n, i), Offset(lines, c.start), Offset(lines, c.end))
    decreases n, |n.children| - i
  {
    if i < |n.children| {
      ChildForm(lines, n, i);
      CollectedApart(lines, n.children[i]);
      RestAside(lines, n, c, i + 1);
      hide NoOverlap, Offset, OnLine, WellNested, Between, Aside, Collected;
      InsideIsAside(lines, c, n.children[i], Collected(lines, n.children[i]));
      AsideSum(Collected(lines, n.children[i]), CollectedFrom(lines, n, i + 1), Offset(lines, c.start),
          Offset(lines, c.end));
    }
  }

  /** The fixed text is the simultaneous replacement of all outermost calls that have a fix. */
  method FixCalls(lines: seq<string>, tree: Node) returns (result: string, ghost paths: seq<seq<nat>>)
    requires WellNested(lines, tree)
    ensures var text, edits := Concat(lines), Collected(lines, tree);
            && Compatible(edits) && DistinctStarts(edits) && Within(edits, |text|)
            && Chained(Reversed(SortDescending(edits)), 0, |text|)
            && result == Splice(text, Reversed(SortDescending(edits)), 0)
    ensures OneForOne(lines, tree, Collected(lines, tree), paths)
  {
    var text := Concat(lines);
    var offsets := LineOffsets(lines);
    var replacements := Visit(lines, offsets, tree, []);
    assert replacements == Collected(lines, tree);
    CollectedApart(lines, tree);
    TreeInside(lines, tree);
    paths := CollectedCalls(lines, tree);
    hide OneForOne, WellNested, Collected, SortDescending, Concat;
    DisjointFits(replacements, |text|);
    CompatibleIsChained(replacements, |text|);
    if replacements == [] {
      assert SortDescending([]) == [] by { SortedDescending([]); }
      return text, paths;
    }
    var edits := SortDescending(replacements);
    result := text;
    for i := 0 to |edits|
      invariant ApplyInOrder(result, edits[i..]) == ApplyInOrder(text, edits)
    {
      assert edits[i..][1..] == edits[i + 1..];
      result := result[..Clamp(edits[i].start, |result|)] + edits[i].text + result[Clamp(edits[i].end, |result|)..];
    }
    ApplyIsSplice(text, edits);
  }

  lemma {:induction false} TreeInside(lines: seq<string>, n: Node)
    requires WellNested(lines, n)
    ensures OnLine(lines, n.end) && Offset(lines, n.end) <= |Concat(lines)|
  {
    OffsetsOrdered(lines, n.end, n.end);
  }
}
