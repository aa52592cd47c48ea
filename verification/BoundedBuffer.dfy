/** A buffer that keeps the end of a stream: whole chunks, as many as fit. */
module BoundedBuffers {
  import opened PyStrings

  function TotalLength(chunks: seq<string>): nat {
    if chunks == [] then 0 else |chunks[0]| + TotalLength(chunks[1..])
  }

  lemma {:induction false} ConcatLength(chunks: seq<string>)
    ensures |Concat(chunks)| == TotalLength(chunks)
  {
    if chunks != [] {
      ConcatLength(chunks[1..]);
    }
  }

  lemma {:induction false} LengthAppends(chunks: seq<string>, chunk: string)
    ensures TotalLength(chunks + [chunk]) == TotalLength(chunks) + |chunk|
  {
    if chunks == [] {
      assert [] + [chunk] == [chunk] && [chunk][1..] == [];
    } else {
      assert (chunks + [chunk])[1..] == chunks[1..] + [chunk];
      LengthAppends(chunks[1..], chunk);
    }
  }

  lemma {:induction false} SuffixIsShorter(chunks: seq<string>, i: nat, j: nat)
    requires i <= j <= |chunks|
    ensures TotalLength(chunks[j..]) <= TotalLength(chunks[i..])
    decreases j - i
  {
    if i < j {
      assert chunks[i..][1..] == chunks[i + 1..];
      SuffixIsShorter(chunks, i + 1, j);
    }
  }

  /** `kept` is the history from chunk `start` on, and no longer suffix fits. */
  ghost predicate SuffixFrom(history: seq<string>, kept: seq<string>, max: int, start: nat) {
    start <= |history| && kept == history[start..] && forall i: nat | i < start :: max < TotalLength(history[i..])
  }

  /** `kept` is the longest suffix of the history that fits; the empty one is kept when nothing fits. */
  ghost predicate LongestSuffix(history: seq<string>, kept: seq<string>, max: int) {
    (kept == [] || TotalLength(kept) <= max) && exists start: nat :: SuffixFrom(history, kept, max, start)
  }

  lemma {:induction false} SuffixGrows(history: seq<string>, kept: seq<string>, max: int, start: nat, chunk: string)
    requires SuffixFrom(history, kept, max, start)
    ensures SuffixFrom(history + [chunk], kept + [chunk], max, start)
  {
    forall i: nat | i < start
      ensures max < TotalLength((history + [chunk])[i..])
    {
      assert (history + [chunk])[i..] == history[i..] + [chunk];
      LengthAppends(history[i..], chunk);
    }
  }

  lemma {:induction false} SuffixShrinks(history: seq<string>, kept: seq<string>, max: int, start: nat)
    requires SuffixFrom(history, kept, max, start) && kept != [] && max < TotalLength(kept)
    ensures SuffixFrom(history, kept[1..], max, start + 1)
  {
  }

  class BoundedBuffer {
    const maxChars: int
    var chunks: seq<string>
    var length: int
    ghost var history: seq<string>

    /** The buffer holds the longest suffix of the chunks appended so far that fits, empty ones apart. */
    ghost predicate Valid()
      reads this
    {
      length == TotalLength(chunks) && LongestSuffix(history, chunks, maxChars)
    }

    constructor (maxChars: int)
      ensures Valid() && this.maxChars == maxChars && history == []
    {
      this.maxChars := maxChars;
      chunks, length, history := [], 0, [];
      new;
      assert SuffixFrom(history, chunks, maxChars, 0);
    }

    method Append(chunk: string)
      requires Valid()
      modifies this
      ensures Valid() && history == if chunk == "" then old(history) else old(history) + [chunk]
    {
      if chunk == "" {
        return;
      }
      ghost var start: nat :| SuffixFrom(history, chunks, maxChars, start);
      SuffixGrows(history, chunks, maxChars, start, chunk);
      LengthAppends(chunks, chunk);
      history := history + [chunk];
      chunks := chunks + [chunk];
      length := length + |chunk|;
      while length > maxChars && chunks != []
        invariant SuffixFrom(history, chunks, maxChars, start) && length == TotalLength(chunks)
        invariant history == old(history) + [chunk]
        decreases |chunks|
      {
        SuffixShrinks(history, chunks, maxChars, start);
        var removed := chunks[0];
        chunks := chunks[1..];
        length := length - |removed|;
        start := start + 1;
      }
    }

    method GetValue() returns (value: string)
      requires Valid()
      ensures value == Concat(chunks) && (maxChars >= 0 ==> |value| <= maxChars)
    {
      ConcatLength(chunks);
      value := Concat(chunks);
    }
  }

  /** The longest fitting suffix is unique, and no longer suffix fits. */
  lemma {:induction false} LongestIsUnique(history: seq<string>, a: seq<string>, b: seq<string>, max: int)
    requires LongestSuffix(history, a, max) && LongestSuffix(history, b, max)
    ensures a == b
  {
    var i: nat :| SuffixFrom(history, a, max, i);
    var j: nat :| SuffixFrom(history, b, max, j);
    assert |a| == |history| - i && |b| == |history| - j;
    assert TotalLength(history[i..]) == TotalLength(a) && TotalLength(history[j..]) == TotalLength(b);
  }

  /** A suffix fits exactly if it is no longer than what is kept. */
  lemma {:induction false} FitsExactly(history: seq<string>, kept: seq<string>, max: int, i: nat)
    requires 0 <= max && i <= |history| && LongestSuffix(history, kept, max)
    ensures TotalLength(history[i..]) <= max <==> |history| - i <= |kept|
  {
    var start: nat :| SuffixFrom(history, kept, max, start);
    if start <= i {
      SuffixIsShorter(history, start, i);
    }
  }
}
