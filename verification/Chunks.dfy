/**
 * Cutting a transcript into chunks for a summarizer. The sizes of requests are arbitrary
 * positive numbers: nothing says that a longer chunk makes a larger request.
 */
module Chunks {
  import opened Wrappers
  import Text

  /** The tokens and bytes of the complete request for a chunk. */
  datatype Sizer = Sizer(tokens: string -> nat, bytes: string -> nat)

  ghost predicate Positive(sizer: Sizer) {
    forall s: string :: sizer.tokens(s) > 0 && sizer.bytes(s) > 0
  }

  predicate Fits(sizer: Sizer, maxTokens: int, maxBytes: int, chunk: string) {
    sizer.tokens(chunk) <= maxTokens && (maxBytes <= 0 || sizer.bytes(chunk) <= maxBytes)
  }

  // ---------------------------------------------------------------------------
  // One chunk
  // ---------------------------------------------------------------------------

  /** Whether the prefix of a size makes a request that fits. */
  function Prefixes(sizer: Sizer, maxTokens: int, maxBytes: int, text: string): int -> bool {
    size => 0 <= size <= |text| && Fits(sizer, maxTokens, maxBytes, text[..size])
  }

  function Middle(low: nat, high: nat): (size: nat)
    requires low <= high
    ensures low <= size <= high
  {
    (low + high) / 2
  }

  /** The binary search between two sizes, all below the first having been passed. */
  function Searched(fits: int -> bool, low: nat, high: nat): (best: nat)
    requires 1 <= low <= high + 1
    ensures low - 1 <= best <= high
    decreases high + 1 - low
  {
    if low > high then low - 1
    else
      var size := Middle(low, high);
      if fits(size) then Searched(fits, size + 1, high) else Searched(fits, low, size - 1)
  }

  function Chunk(sizer: Sizer, maxTokens: int, maxBytes: int, text: string): (chunk: string)
    ensures chunk <= text
  {
    text[..Searched(Prefixes(sizer, maxTokens, maxBytes, text), 1, |text|)]
  }

  /** `_largest_fitting_transcript_chunk`. */
  method LargestFittingChunk(sizer: Sizer, maxTokens: int, maxBytes: int, text: string) returns (chunk: string)
    ensures chunk == Chunk(sizer, maxTokens, maxBytes, text)
  {
    ghost var fits := Prefixes(sizer, maxTokens, maxBytes, text);
    var low, high, best := 1, |text|, 0;
    while low <= high
      invariant 1 <= low <= high + 1 && high <= |text| && best == low - 1
      invariant Searched(fits, 1, |text|) == Searched(fits, low, high)
      decreases high + 1 - low
    {
      var size := Middle(low, high);
      assert fits(size) == Fits(sizer, maxTokens, maxBytes, text[..size]);
      if Fits(sizer, maxTokens, maxBytes, text[..size]) {
        best, low := size, size + 1;
      } else {
        high := size - 1;
      }
    }
    chunk := text[..best];
  }

  lemma {:induction false} SearchedIsLocal(fits: int -> bool, n: nat, low: nat, high: nat)
    requires 1 <= low <= high + 1 && high <= n
    requires low > 1 ==> fits(low - 1)
    requires high < n ==> !fits(high + 1)
    ensures
      var best := Searched(fits, low, high);
      (best > 0 ==> fits(best)) && (best < n ==> !fits(best + 1))
    decreases high + 1 - low
  {
    if low <= high {
      var size := Middle(low, high);
      if fits(size) {
        SearchedIsLocal(fits, n, size + 1, high);
      } else {
        SearchedIsLocal(fits, n, low, size - 1);
      }
    }
  }

  /** A nonempty chunk fits, and one character more would not. */
  lemma {:induction false} ChunkIsLocallyLargest(sizer: Sizer, maxTokens: int, maxBytes: int, text: string)
    ensures
      var chunk := Chunk(sizer, maxTokens, maxBytes, text);
      && (chunk != "" ==> Fits(sizer, maxTokens, maxBytes, chunk))
      && (chunk != text ==> !Fits(sizer, maxTokens, maxBytes, text[..|chunk| + 1]))
  {
    SearchedIsLocal(Prefixes(sizer, maxTokens, maxBytes, text), |text|, 1, |text|);
    assert text[..|text|] == text;
  }

  /** So the chunk is the largest one wherever a prefix of a fitting chunk fits. */
  lemma {:induction false} ChunkIsLargestWhenSizesGrow(
    sizer: Sizer, maxTokens: int, maxBytes: int, text: string, n: nat)
    requires
      var fits := Prefixes(sizer, maxTokens, maxBytes, text);
      fits(n) && forall i, j :: 0 < i <= j && fits(j) ==> fits(i)
    ensures n <= |Chunk(sizer, maxTokens, maxBytes, text)|
  {
    var fits := Prefixes(sizer, maxTokens, maxBytes, text);
    SearchedIsLocal(fits, |text|, 1, |text|);
    var best := Searched(fits, 1, |text|);
    assert best < n ==> fits(best + 1);
  }

  // ---------------------------------------------------------------------------
  // All chunks
  // ---------------------------------------------------------------------------

  datatype Bounds = Bounds(inputTokens: int, totalTokens: int) {
    function InputBytes(): int { inputTokens * 4 }
    function TotalBytes(): int { totalTokens * 4 }
  }

  /** Cut a text into chunks one after the other; none if some chunk would be empty. */
  function Tiled(sizer: Sizer, b: Bounds, text: string): Option<seq<string>> {
    if text == "" then Some([])
    else
      var chunk := Chunk(sizer, b.inputTokens, b.InputBytes(), text);
      if chunk == "" then None
      else match Tiled(sizer, b, text[|chunk|..])
        case None => None
        case Some(rest) => Some([chunk] + rest)
  }

  function Joined(chunks: seq<string>): string {
    if chunks == [] then "" else chunks[0] + Joined(chunks[1..])
  }

  function SumTokens(sizer: Sizer, chunks: seq<string>): nat {
    if chunks == [] then 0 else sizer.tokens(chunks[0]) + SumTokens(sizer, chunks[1..])
  }

  function SumBytes(sizer: Sizer, chunks: seq<string>): nat {
    if chunks == [] then 0 else sizer.bytes(chunks[0]) + SumBytes(sizer, chunks[1..])
  }

  predicate WithinTotals(sizer: Sizer, b: Bounds, chunks: seq<string>) {
    SumTokens(sizer, chunks) <= b.totalTokens && SumBytes(sizer, chunks) <= b.TotalBytes()
  }

  /** The next length to try: nine tenths of what the totals allow, and always less than before. */
  function NextLimit(b: Bounds, limit: nat, tokens: nat, bytes: nat): (next: int)
    requires tokens > 0 && bytes > 0
    ensures next < limit
  {
    Min(limit - 1,
        Max(1, Min(limit * b.totalTokens * 9 / (tokens * 10), limit * b.TotalBytes() * 9 / (bytes * 10))))
  }

  lemma {:induction false} SumsArePositive(sizer: Sizer, chunks: seq<string>)
    requires Positive(sizer) && chunks != []
    ensures SumTokens(sizer, chunks) > 0 && SumBytes(sizer, chunks) > 0
  {
  }

  lemma {:induction false} TruncationIsSome(text: string, limit: nat)
    requires 0 < limit <= |text|
    ensures Text.Truncate(text, limit) != ""
  {
  }

  /** The chunks for the longest truncation tried whose requests stay within the totals. */
  ghost function Chunked(sizer: Sizer, b: Bounds, transcript: string, limit: int): seq<string>
    requires Positive(sizer) && limit <= |transcript|
    decreases limit
  {
    if limit <= 0 then []
    else
      TruncationIsSome(transcript, limit);
      match Tiled(sizer, b, Text.Truncate(transcript, limit))
      case None => []
      case Some(chunks) =>
        SumsArePositive(sizer, chunks);
        if WithinTotals(sizer, b, chunks) then chunks
        else
          Chunked(sizer, b, transcript, NextLimit(b, limit, SumTokens(sizer, chunks), SumBytes(sizer, chunks)))
  }

  function WithTokens(sizer: Sizer, chunks: seq<string>): (r: seq<(string, nat)>)
    ensures |r| == |chunks| && forall i :: 0 <= i < |r| ==> r[i] == (chunks[i], sizer.tokens(chunks[i]))
  {
    seq(|chunks|, i requires 0 <= i < |chunks| => (chunks[i], sizer.tokens(chunks[i])))
  }

  lemma {:induction false} SumsAppend(sizer: Sizer, chunks: seq<string>, chunk: string)
    ensures SumTokens(sizer, chunks + [chunk]) == SumTokens(sizer, chunks) + sizer.tokens(chunk)
    ensures SumBytes(sizer, chunks + [chunk]) == SumBytes(sizer, chunks) + sizer.bytes(chunk)
  {
    if chunks == [] {
      assert [] + [chunk] == [chunk];
    } else {
      assert (chunks + [chunk])[1..] == chunks[1..] + [chunk];
      SumsAppend(sizer, chunks[1..], chunk);
    }
  }

  ghost predicate Continues(sizer: Sizer, b: Bounds, bounded: string, cursor: nat, chunks: seq<string>)
    requires cursor <= |bounded|
  {
    match Tiled(sizer, b, bounded[cursor..])
    case None => Tiled(sizer, b, bounded) == None
    case Some(rest) => Tiled(sizer, b, bounded) == Some(chunks + rest)
  }

  lemma {:induction false} ContinuesFromStart(sizer: Sizer, b: Bounds, bounded: string)
    ensures Continues(sizer, b, bounded, 0, [])
  {
    assert bounded[0..] == bounded;
    var all := Tiled(sizer, b, bounded);
    assert all.Some? ==> [] + all.value == all.value;
  }

  lemma {:induction false} ContinuesBy(
    sizer: Sizer, b: Bounds, bounded: string, cursor: nat, chunks: seq<string>, chunk: string)
    requires cursor < |bounded| && Continues(sizer, b, bounded, cursor, chunks)
    requires chunk == Chunk(sizer, b.inputTokens, b.InputBytes(), bounded[cursor..])
    ensures chunk == "" ==> Tiled(sizer, b, bounded) == None
    ensures chunk != "" ==>
      cursor + |chunk| <= |bounded| && Continues(sizer, b, bounded, cursor + |chunk|, chunks + [chunk])
  {
    assert |chunk| <= |bounded| - cursor;
    assert bounded[cursor..][|chunk|..] == bounded[cursor + |chunk|..];
    var rest := Tiled(sizer, b, bounded[cursor + |chunk|..]);
    assert rest.Some? ==> chunks + ([chunk] + rest.value) == (chunks + [chunk]) + rest.value;
  }

  /** One pass over a truncated transcript, adding up the sizes of its requests. */
  method Tile(sizer: Sizer, b: Bounds, bounded: string)
    returns (r: Option<seq<string>>, tokens: nat, bytes: nat)
    ensures r == Tiled(sizer, b, bounded)
    ensures r.Some? ==> tokens == SumTokens(sizer, r.value) && bytes == SumBytes(sizer, r.value)
  {
    var chunks: seq<string> := [];
    var cursor := 0;
    tokens, bytes := 0, 0;
    ContinuesFromStart(sizer, b, bounded);
    while cursor < |bounded|
      invariant cursor <= |bounded|
      invariant tokens == SumTokens(sizer, chunks) && bytes == SumBytes(sizer, chunks)
      invariant Continues(sizer, b, bounded, cursor, chunks)
      decreases |bounded| - cursor
    {
      var chunk := LargestFittingChunk(sizer, b.inputTokens, b.InputBytes(), bounded[cursor..]);
      ContinuesBy(sizer, b, bounded, cursor, chunks, chunk);
      if chunk == "" {
        return None, tokens, bytes;
      }
      SumsAppend(sizer, chunks, chunk);
      chunks := chunks + [chunk];
      tokens, bytes := tokens + sizer.tokens(chunk), bytes + sizer.bytes(chunk);
      cursor := cursor + |chunk|;
    }
    assert chunks + [] == chunks;
    return Some(chunks), tokens, bytes;
  }

  predicate EmptyFits(sizer: Sizer, b: Bounds) {
    && sizer.tokens("") <= Min(b.inputTokens, b.totalTokens)
    && sizer.bytes("") <= Min(b.InputBytes(), b.TotalBytes())
  }

  /** `_bounded_summarizer_chunks`. */
  method BoundedChunks(sizer: Sizer, b: Bounds, transcript: string) returns (chunks: seq<(string, nat)>)
    requires Positive(sizer)
    ensures transcript != "" ==> chunks == WithTokens(sizer, Chunked(sizer, b, transcript, |transcript|))
    ensures transcript == "" ==> chunks == if EmptyFits(sizer, b) then [("", sizer.tokens(""))] else []
  {
    if transcript == "" {
      var tokens, bytes := sizer.tokens(""), sizer.bytes("");
      if tokens <= b.inputTokens && tokens <= b.totalTokens && bytes <= b.InputBytes() && bytes <= b.TotalBytes() {
        return [("", tokens)];
      }
      return [];
    }
    var limit: int := |transcript|;
    while limit > 0
      invariant limit <= |transcript|
      invariant Chunked(sizer, b, transcript, |transcript|) == Chunked(sizer, b, transcript, limit)
      decreases limit
    {
      TruncationIsSome(transcript, limit);
      var tiles, tokens, bytes := Tile(sizer, b, Text.Truncate(transcript, limit));
      if tiles.None? {
        return [];
      }
      if tokens <= b.totalTokens && bytes <= b.TotalBytes() {
        return WithTokens(sizer, tiles.value);
      }
      SumsArePositive(sizer, tiles.value);
      limit := NextLimit(b, limit, tokens, bytes);
    }
    return [];
  }

  // ---------------------------------------------------------------------------
  // What the chunks are
  // ---------------------------------------------------------------------------

  /** Chunks that follow one another through a text, each nonempty and within the request limits. */
  ghost predicate Tiles(sizer: Sizer, b: Bounds, text: string, chunks: seq<string>) {
    && Joined(chunks) == text
    && forall i :: 0 <= i < |chunks| ==>
         && chunks[i] != ""
         && sizer.tokens(chunks[i]) <= b.inputTokens && sizer.bytes(chunks[i]) <= b.InputBytes()
  }

  lemma {:induction false} TiledTiles(sizer: Sizer, b: Bounds, text: string)
    requires Positive(sizer)
    ensures match Tiled(sizer, b, text)
            case None => true
            case Some(chunks) => Tiles(sizer, b, text, chunks)
  {
    if text != "" {
      var chunk := Chunk(sizer, b.inputTokens, b.InputBytes(), text);
      ChunkIsLocallyLargest(sizer, b.inputTokens, b.InputBytes(), text);
      if chunk != "" {
        assert text == chunk + text[|chunk|..];
        TiledTiles(sizer, b, text[|chunk|..]);
      }
    }
  }

  lemma {:induction false} ChunkedTiles(sizer: Sizer, b: Bounds, transcript: string, limit: int)
    requires Positive(sizer) && limit <= |transcript|
    ensures
      var chunks := Chunked(sizer, b, transcript, limit);
      chunks != [] ==>
        && WithinTotals(sizer, b, chunks)
        && exists n :: 0 < n <= limit && Tiles(sizer, b, Text.Truncate(transcript, n), chunks)
    decreases limit
  {
    if limit > 0 {
      TruncationIsSome(transcript, limit);
      TiledTiles(sizer, b, Text.Truncate(transcript, limit));
      match Tiled(sizer, b, Text.Truncate(transcript, limit))
      case None =>
      case Some(chunks) =>
        SumsArePositive(sizer, chunks);
        if !WithinTotals(sizer, b, chunks) {
          ChunkedTiles(sizer, b, transcript, NextLimit(b, limit, SumTokens(sizer, chunks), SumBytes(sizer, chunks)));
        }
    }
  }

  /**
   * The chunks of a transcript tile a truncation of it without gap or overlap, each request
   * within its limits and all of them within the totals; and they tile the whole transcript
   * whenever the requests for that stay within the totals.
   */
  lemma {:induction false} ChunksTileATruncation(sizer: Sizer, b: Bounds, transcript: string)
    requires Positive(sizer)
    ensures
      var chunks := Chunked(sizer, b, transcript, |transcript|);
      chunks != [] ==>
        && WithinTotals(sizer, b, chunks)
        && exists n :: 0 < n <= |transcript| && Tiles(sizer, b, Text.Truncate(transcript, n), chunks)
    ensures
      var whole := Tiled(sizer, b, transcript);
      whole.Some? && WithinTotals(sizer, b, whole.value) ==>
        Chunked(sizer, b, transcript, |transcript|) == whole.value
  {
    ChunkedTiles(sizer, b, transcript, |transcript|);
  }

  // ---------------------------------------------------------------------------
  // The numbers
  // ---------------------------------------------------------------------------

  lemma {:induction false} FloorAtLeast(n: int, x: int, d: int)
    requires d > 0
    ensures n <= x / d <==> n * d <= x
  {
    var q := x / d;
    if n <= q {
      TimesGrows(n, q, d);
    } else {
      TimesGrows(q + 1, n, d);
    }
  }

  lemma {:induction false} TimesGrows(a: int, b: int, d: int)
    requires a <= b && d > 0
    ensures a * d <= b * d
  {
  }

  /**
   * The next length to try is below the last one, and otherwise the largest that, in proportion,
   * takes nine tenths of both totals, but not less than one character.
   */
  lemma {:induction false} NextLimitIsProportional(b: Bounds, limit: nat, tokens: nat, bytes: nat, n: int)
    requires tokens > 0 && bytes > 0
    ensures n <= NextLimit(b, limit, tokens, bytes) <==>
      && n < limit
      && (|| n <= 1
          || (&& n * (tokens * 10) <= limit * b.totalTokens * 9
              && n * (bytes * 10) <= limit * (b.totalTokens * 4) * 9))
  {
    FloorAtLeast(n, limit * b.totalTokens * 9, tokens * 10);
    FloorAtLeast(n, limit * b.TotalBytes() * 9, bytes * 10);
  }

  /** Four bytes are allowed for each token, in one request and in total. */
  lemma {:induction false} LimitsOfChunks(sizer: Sizer, b: Bounds, text: string, chunks: seq<string>)
    requires Tiles(sizer, b, text, chunks) && WithinTotals(sizer, b, chunks)
    ensures forall i :: 0 <= i < |chunks| ==>
      sizer.tokens(chunks[i]) <= b.inputTokens && sizer.bytes(chunks[i]) <= b.inputTokens * 4
    ensures SumTokens(sizer, chunks) <= b.totalTokens && SumBytes(sizer, chunks) <= b.totalTokens * 4
  {
  }

  /** An empty transcript is worth a request exactly when that request is within all limits. */
  lemma {:induction false} EmptyTranscript(sizer: Sizer, b: Bounds)
    ensures EmptyFits(sizer, b) <==>
      && sizer.tokens("") <= b.inputTokens && sizer.tokens("") <= b.totalTokens
      && sizer.bytes("") <= b.inputTokens * 4 && sizer.bytes("") <= b.totalTokens * 4
  {
  }
}
