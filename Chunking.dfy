/** `chunk_text_by_tokens` of app.py: a sliding window of at most `maxTokens`
    tokens that advances by `maxTokens - overlap` tokens, over the token
    sequence of a text. The tokenizer is passed in as `encode` and `decode`. */
module Chunking {
  import opened Wrappers

  /** MAX_CHUNK_TOKENS and CHUNK_OVERLAP_TOKENS, the values the upload route uses. */
  const MaxChunkTokens := 500
  const ChunkOverlapTokens := 50

  function Min(a: int, b: int): int {
    if a <= b then a else b
  }

  /** Python's `s[i:j]` for a start that is not negative: a negative end
      counts from the back, and an end at or before the start gives []. */
  function PySlice(s: seq<int>, i: nat, j: int): (r: seq<int>)
    ensures 0 <= j <= |s| && i < j ==> r == s[i..j]
    ensures 0 <= j <= i ==> r == []
    ensures j < 0 && i < |s| + j ==> r == s[i..|s| + j]
    ensures j < 0 && |s| + j <= i ==> r == []
  {
    var hi := if j < 0 then (if j + |s| < 0 then 0 else j + |s|) else Min(j, |s|);
    if i < hi then s[i..hi] else []
  }

  /** The chunk the loop body cuts when `start_index` is `start`. */
  function Window(tokens: seq<int>, start: nat, maxTokens: int): seq<int> {
    PySlice(tokens, start, Min(start + maxTokens, |tokens|))
  }

  lemma WindowSlice(tokens: seq<int>, start: nat, maxTokens: int)
    requires start < |tokens| && maxTokens > 0
    ensures Window(tokens, start, maxTokens) == tokens[start..Min(start + maxTokens, |tokens|)]
  {
  }

  /** The number of window starts `0, step, 2*step, ...` below `n`. */
  function ChunkCount(n: nat, step: nat): (count: nat)
    requires step > 0
    ensures count * step >= n
    ensures count == 0 || (count - 1) * step < n
    decreases n
  {
    if n == 0 then 0
    else if n <= step then 1
    else 1 + ChunkCount(n - step, step)
  }

  lemma MulLe(a: nat, b: nat, c: nat)
    requires a <= b
    ensures a * c <= b * c
  {
  }

  /** A window start `k * step` lies below `n` exactly for the first
      ChunkCount(n, step) values of `k`. */
  lemma ChunkIndexInRange(n: nat, step: nat, k: nat)
    requires step > 0
    ensures k < ChunkCount(n, step) <==> k * step < n
  {
    var count := ChunkCount(n, step);
    if k < count {
      MulLe(k, count - 1, step);
    } else {
      MulLe(count, k, step);
    }
  }

  /** A count of windows is ChunkCount as soon as its last start is below
      `n` and the next one is not. */
  lemma ChunkCountUnique(n: nat, step: nat, count: nat)
    requires step > 0
    requires count > 0 && (count - 1) * step < n <= count * step
    ensures ChunkCount(n, step) == count
  {
    var c := ChunkCount(n, step);
    if c < count {
      ChunkIndexInRange(n, step, c);
      MulLe(c, count - 1, step);
    } else if c > count {
      ChunkIndexInRange(n, step, count);
    }
  }

  /** The chunks, as token windows, for a token sequence: window `k` starts
      at `k * (maxTokens - overlap)`, for every such start below the length. */
  function Windows(tokens: seq<int>, maxTokens: int, overlap: int): seq<seq<int>>
    requires maxTokens > overlap
  {
    var step := maxTokens - overlap;
    seq(ChunkCount(|tokens|, step), k requires 0 <= k => Window(tokens, k * step, maxTokens))
  }

  /** The chunks of a text: none for an empty text, otherwise the decoded
      windows of its tokens, in order. */
  function ChunkedText(text: string, encode: string -> seq<int>, decode: seq<int> -> string,
                       maxTokens: int, overlap: int): seq<string>
    requires maxTokens > overlap
  {
    if text == "" then []
    else
      var w := Windows(encode(text), maxTokens, overlap);
      seq(|w|, k requires 0 <= k < |w| => decode(w[k]))
  }

  /** chunk_text_by_tokens. The loop stops only when the window advances,
      hence the requirement that `maxTokens` exceed `overlap` (see
      IterationsDiverge for what happens otherwise). */
  method ChunkTextByTokens(text: string, encode: string -> seq<int>, decode: seq<int> -> string,
                           maxTokens: int, overlap: int)
    returns (chunks: seq<string>)
    requires maxTokens > overlap
    ensures chunks == ChunkedText(text, encode, decode, maxTokens, overlap)
    ensures text == "" ==> chunks == []
  {
    if text == "" {
      return [];
    }
    var tokens := encode(text);
    var step := maxTokens - overlap;
    chunks := [];
    var startIndex := 0;
    ghost var k := 0;
    while startIndex < |tokens|
      invariant k >= 0 && startIndex == k * step
      invariant k > 0 ==> startIndex < |tokens|
      invariant |chunks| == k
      invariant forall j :: 0 <= j < k ==> chunks[j] == decode(Window(tokens, j * step, maxTokens))
      decreases |tokens| - startIndex
    {
      var endIndex := Min(startIndex + maxTokens, |tokens|);
      var chunkTokens := PySlice(tokens, startIndex, endIndex);
      chunks := chunks + [decode(chunkTokens)];
      var nextStartIndex := startIndex + (maxTokens - overlap);
      NextStart(k, step);
      if nextStartIndex >= |tokens| {
        ChunkCountUnique(|tokens|, step, k + 1);
        k := k + 1;
        break;
      }
      startIndex := nextStartIndex;
      k := k + 1;
    }
    var w := Windows(tokens, maxTokens, overlap);
    assert |chunks| == |w|;
    forall j | 0 <= j < |w|
      ensures chunks[j] == decode(w[j])
    {
    }
  }

  lemma NextStart(k: nat, step: int)
    ensures k * step + step == (k + 1) * step
  {
  }

  /** With a positive window and an overlap that is not negative, window `k`
      is the slice `tokens[k*step .. min(k*step + maxTokens, n)]`. */
  lemma WindowAt(tokens: seq<int>, maxTokens: int, overlap: int, k: nat)
    requires 0 <= overlap < maxTokens
    requires k < |Windows(tokens, maxTokens, overlap)|
    ensures var start := k * (maxTokens - overlap);
      && 0 <= start < |tokens|
      && Windows(tokens, maxTokens, overlap)[k] == tokens[start..Min(start + maxTokens, |tokens|)]
  {
    var step := maxTokens - overlap;
    var start := k * step;
    ChunkIndexInRange(|tokens|, step, k);
    assert Windows(tokens, maxTokens, overlap)[k] == Window(tokens, start, maxTokens);
    WindowSlice(tokens, start, maxTokens);
  }

  /** Every chunk holds at least one token and at most `maxTokens`. */
  lemma ChunkSizes(tokens: seq<int>, maxTokens: int, overlap: int)
    requires 0 <= overlap < maxTokens
    ensures var w := Windows(tokens, maxTokens, overlap);
      forall k :: 0 <= k < |w| ==> 0 < |w[k]| <= maxTokens
  {
    var w := Windows(tokens, maxTokens, overlap);
    forall k | 0 <= k < |w| ensures 0 < |w[k]| <= maxTokens {
      WindowAt(tokens, maxTokens, overlap, k);
    }
  }

  /** The last chunk runs to the end of the tokens. */
  lemma LastChunkReachesEnd(tokens: seq<int>, maxTokens: int, overlap: int)
    requires 0 <= overlap < maxTokens
    requires tokens != []
    ensures var w := Windows(tokens, maxTokens, overlap);
      var last := (|w| - 1) * (maxTokens - overlap);
      |w| > 0 && w[|w| - 1] == tokens[last..]
  {
    var step := maxTokens - overlap;
    var w := Windows(tokens, maxTokens, overlap);
    var count := ChunkCount(|tokens|, step);
    assert count > 0;
    assert (count - 1) * step + step == count * step;
    WindowAt(tokens, maxTokens, overlap, count - 1);
  }

  /** Every token lies in some chunk, at the offset its position gives. */
  lemma Coverage(tokens: seq<int>, maxTokens: int, overlap: int, i: nat) returns (k: nat)
    requires 0 <= overlap < maxTokens
    requires i < |tokens|
    ensures var w := Windows(tokens, maxTokens, overlap);
      var start := k * (maxTokens - overlap);
      && k < |w|
      && start <= i < start + |w[k]|
      && w[k][i - start] == tokens[i]
  {
    var step := maxTokens - overlap;
    k := i / step;
    QuotientBounds(i, step);
    ChunkIndexInRange(|tokens|, step, k);
    WindowAt(tokens, maxTokens, overlap, k);
  }

  /** The chunk that holds token `i` is the one `i / step` gives. */
  lemma QuotientBounds(i: nat, step: int)
    requires step > 0
    ensures (i / step) * step <= i < (i / step) * step + step
  {
  }

  /** A full-length chunk followed by another shares exactly `overlap`
      tokens with it: its last `overlap` tokens open the next chunk. */
  lemma FullChunksOverlap(tokens: seq<int>, maxTokens: int, overlap: int, k: nat)
    requires 0 <= overlap < maxTokens
    requires k + 1 < |Windows(tokens, maxTokens, overlap)|
    requires k * (maxTokens - overlap) + maxTokens <= |tokens|
    ensures var w := Windows(tokens, maxTokens, overlap);
      && |w[k]| == maxTokens
      && |w[k + 1]| >= overlap
      && w[k][maxTokens - overlap..] == w[k + 1][..overlap]
  {
    var step := maxTokens - overlap;
    WindowAt(tokens, maxTokens, overlap, k);
    WindowAt(tokens, maxTokens, overlap, k + 1);
    assert (k + 1) * step == k * step + step;
  }

  /** A chunk that already reaches the end, when another follows it: the
      next chunk is the tail of this one, so it adds no new token. */
  lemma TrailingChunkContained(tokens: seq<int>, maxTokens: int, overlap: int, k: nat)
    requires 0 <= overlap < maxTokens
    requires k + 1 < |Windows(tokens, maxTokens, overlap)|
    requires |tokens| <= k * (maxTokens - overlap) + maxTokens
    ensures var w := Windows(tokens, maxTokens, overlap);
      && |w[k]| > maxTokens - overlap
      && w[k + 1] == w[k][maxTokens - overlap..]
  {
    var step := maxTokens - overlap;
    var n := |tokens|;
    var s0 := k * step;
    var s1 := (k + 1) * step;
    assert s1 == s0 + step;
    WindowAt(tokens, maxTokens, overlap, k);
    WindowAt(tokens, maxTokens, overlap, k + 1);
    var w := Windows(tokens, maxTokens, overlap);
    assert w[k] == tokens[s0..n];
    assert w[k + 1] == tokens[s1..n];
    assert w[k][step..] == tokens[s1..n];
  }

  /** The control of the loop alone, run for at most `fuel` iterations from
      `start_index == start` with advance `step`: how many times the body
      ran before the loop was left, or None if it was still running. */
  function Iterations(n: nat, start: int, step: int, fuel: nat): Option<nat>
    decreases fuel
  {
    if start >= n then Some(0)
    else if fuel == 0 then None
    else if start + step >= n then Some(1)
    else match Iterations(n, start + step, step, fuel - 1)
      case Some(c) => Some(c + 1)
      case None => None
  }

  /** With a positive advance the loop is left after ChunkCount iterations,
      within `n - start` steps of fuel. */
  lemma {:induction false} IterationsTerminate(n: nat, start: nat, step: int, fuel: nat)
    requires step > 0 && start <= n && fuel >= n - start
    ensures Iterations(n, start, step, fuel) == Some(ChunkCount(n - start, step))
    decreases n - start
  {
    if start < n && start + step < n {
      IterationsTerminate(n, start + step, step, fuel - 1);
      assert n - start - step == (n - (start + step));
    }
  }

  /** With an advance that is not positive, `start_index` never reaches the
      length: once a token exists the loop runs forever, whatever the fuel. */
  lemma {:induction false} IterationsDiverge(n: nat, start: int, step: int, fuel: nat)
    requires step <= 0 && start < n
    ensures Iterations(n, start, step, fuel) == None
    decreases fuel
  {
    if fuel > 0 {
      IterationsDiverge(n, start + step, step, fuel - 1);
    }
  }

  /** With the configured constants a 1000-token text gives three chunks,
      starting at 0, 450 and 900, of 500, 500 and 100 tokens. */
  lemma ConfiguredChunking(tokens: seq<int>)
    requires |tokens| == 1000
    ensures var w := Windows(tokens, MaxChunkTokens, ChunkOverlapTokens);
      && |w| == 3
      && w[0] == tokens[0..500] && w[1] == tokens[450..950] && w[2] == tokens[900..1000]
  {
    assert ChunkCount(1000, 450) == 3;
  }
}
