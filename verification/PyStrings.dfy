/** The string operations of the source language that the modelled code relies on, for ASCII white space. */
module PyStrings {

  datatype Option<T> = None | Some(value: T)

  predicate Space(c: char) {
    c == ' ' || c == '\t' || c == '\n' || c == '\r' || c == 11 as char || c == 12 as char
  }

  function Lower(c: char): char {
    if 'A' <= c <= 'Z' then c + 32 as char else c
  }

  function LeadingSpaces(s: string): (n: nat)
    ensures n <= |s|
    ensures forall k | 0 <= k < n :: Space(s[k])
    ensures n < |s| ==> !Space(s[n])
  {
    if s != "" && Space(s[0]) then 1 + LeadingSpaces(s[1..]) else 0
  }

  function Lstrip(s: string): string { s[LeadingSpaces(s)..] }

  function Rstrip(s: string): (r: string)
    ensures |r| <= |s| && r == s[..|r|]
    ensures r != "" ==> !Space(r[|r| - 1])
    ensures forall k | |r| <= k < |s| :: Space(s[k])
  {
    if s != "" && Space(s[|s| - 1]) then Rstrip(s[..|s| - 1]) else s
  }

  function Strip(s: string): string { Rstrip(Lstrip(s)) }

  /** The parts of `s` between the occurrences of `sep`. */
  function Split(s: string, sep: char): (parts: seq<string>)
    ensures |parts| > 0
  {
    if s == "" then [""]
    else
      var rest := Split(s[1..], sep);
      if s[0] == sep then [""] + rest else [[s[0]] + rest[0]] + rest[1..]
  }

  function Join(parts: seq<string>, sep: char): string
    requires parts != []
  {
    if |parts| == 1 then parts[0] else parts[0] + [sep] + Join(parts[1..], sep)
  }

  function Concat(parts: seq<string>): string {
    if parts == [] then "" else parts[0] + Concat(parts[1..])
  }

  lemma {:induction false} JoinSplit(s: string, sep: char)
    ensures Join(Split(s, sep), sep) == s
  {
    if s != "" {
      var rest := Split(s[1..], sep);
      JoinSplit(s[1..], sep);
      if s[0] == sep {
        assert Split(s, sep)[1..] == rest;
      } else if |rest| > 1 {
        assert ([[s[0]] + rest[0]] + rest[1..])[1..] == rest[1..];
      }
    }
  }

  lemma {:induction false} SplitWord(w: string, sep: char)
    requires sep !in w
    ensures Split(w, sep) == [w]
  {
    if w != "" {
      assert w[0] in w && [w[0]] + w[1..] == w;
      SplitWord(w[1..], sep);
    }
  }

  lemma {:induction false} SplitFirst(w: string, rest: string, sep: char)
    requires sep !in w
    ensures Split(w + [sep] + rest, sep) == [w] + Split(rest, sep)
  {
    var s := w + [sep] + rest;
    if w == "" {
      assert s[1..] == rest;
    } else {
      assert s[1..] == w[1..] + [sep] + rest;
      assert w[0] in w && [w[0]] + w[1..] == w;
      SplitFirst(w[1..], rest, sep);
      assert ([w[1..]] + Split(rest, sep))[1..] == Split(rest, sep);
    }
  }

  /** Splitting inverts joining when no part holds the separator. */
  lemma {:induction false} SplitJoin(parts: seq<string>, sep: char)
    requires parts != [] && forall p | p in parts :: sep !in p
    ensures Split(Join(parts, sep), sep) == parts
  {
    if |parts| == 1 {
      SplitWord(parts[0], sep);
    } else {
      SplitJoin(parts[1..], sep);
      SplitFirst(parts[0], Join(parts[1..], sep), sep);
    }
  }

  function Unquote(s: string): string {
    if |s| >= 2 && (s[0] == '\'' || s[0] == '"') && s[|s| - 1] == s[0] then s[1..|s| - 1] else s
  }

  predicate AllSpaces(s: string) { forall k | 0 <= k < |s| :: Space(s[k]) }

  lemma {:induction false} LeadingSpacesAre(pre: string, rest: string)
    requires AllSpaces(pre) && (rest != "" ==> !Space(rest[0]))
    ensures LeadingSpaces(pre + rest) == |pre|
  {
    if pre == "" {
      assert pre + rest == rest;
    } else {
      assert (pre + rest)[1..] == pre[1..] + rest;
      LeadingSpacesAre(pre[1..], rest);
    }
  }

  lemma {:induction false} RstripIs(core: string, post: string)
    requires AllSpaces(post) && (core != "" ==> !Space(core[|core| - 1]))
    ensures Rstrip(core + post) == core
  {
    if post == "" {
      assert core + post == core;
    } else {
      assert (core + post)[..|core + post| - 1] == core + post[..|post| - 1];
      RstripIs(core, post[..|post| - 1]);
    }
  }

  /** Stripping removes the spaces around a text that neither starts nor ends with one. */
  lemma {:induction false} StripIs(pre: string, core: string, post: string)
    requires AllSpaces(pre) && AllSpaces(post) && core != "" && !Space(core[0]) && !Space(core[|core| - 1])
    ensures Strip(pre + core + post) == core
  {
    assert pre + core + post == pre + (core + post);
    LeadingSpacesAre(pre, core + post);
    RstripIs(core, post);
  }

  /** White space of ASCII. */
  lemma {:induction false} SpacesAre(c: char)
    ensures Space(c) <==> c == ' ' || '\t' <= c <= '\r'
  {
  }

  const CAPITALS := "ABCDEFGHIJKLMNOPQRSTUVWXYZ"
  const SMALLS := "abcdefghijklmnopqrstuvwxyz"

  /** The capital letters of ASCII have their small ones, and every other character stays. */
  lemma {:induction false} LowerIs(c: char, k: nat)
    requires k < 26
    ensures Lower(CAPITALS[k]) == SMALLS[k]
    ensures c !in CAPITALS ==> Lower(c) == c
  {
    CapitalAt(k);
    SmallAt(k);
    if 'A' <= c <= 'Z' {
      CapitalAt((c - 'A') as nat);
    }
    hide CAPITALS, SMALLS;
  }

  lemma {:induction false} CapitalAt(k: nat)
    requires k < 26
    ensures |CAPITALS| == 26 && CAPITALS[k] as int == 'A' as int + k
  {
    CharsFollow(CAPITALS, 'A', k);
  }

  lemma {:induction false} SmallAt(k: nat)
    requires k < 26
    ensures |SMALLS| == 26 && SMALLS[k] as int == 'a' as int + k
  {
    CharsFollow(SMALLS, 'a', k);
  }

  /** In a text of characters that follow each other, the character at a place. */
  lemma {:induction false} CharsFollow(s: string, first: char, k: nat)
    requires k < |s| && s[0] == first && first as int + |s| < 128
    requires forall i | 0 < i < |s| :: s[i] as int == s[i - 1] as int + 1
    ensures s[k] as int == first as int + k
  {
    if k > 0 {
      CharsFollow(s, first, k - 1);
    }
  }
}
