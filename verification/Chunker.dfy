/**
The chunker: overlapping windows over a token sequence, and a character-level snap of each
window's end to a sentence end. A token is the piece of text it decodes to.
*/
module Chunker {
  import opened Wrappers
  import opened Strings
  import opened Arithmetic

  type Token = string

  datatype Error = OverlapTooLarge

  const CHUNK_SIZE_TOKENS: nat := 512
  const CHUNK_OVERLAP_TOKENS: nat := 64

  /** `x or default`: zero is falsy. */
  function OrDefault(x: nat, default: nat): nat { if x == 0 then default else x }

  // ---- Text ----

  /** The text of tokens `lo` to `hi`. */
  function Decode(tokens: seq<Token>, lo: nat, hi: nat): string
    requires lo <= hi <= |tokens|
    decreases hi - lo
  {
    if lo == hi then "" else Decode(tokens, lo, hi - 1) + tokens[hi - 1]
  }

  predicate IsStop(c: char) {
    c == '.' || c == '!' || c == '?'
  }

  /** A match of `[.!?]\s` ends at `p`. */
  predicate SentenceEnd(s: string, p: nat) {
    2 <= p <= |s| && IsStop(s[p - 2]) && IsSpace(s[p - 1])
  }

  /** The end of the last match within the first `n` characters. Matches cannot overlap: a stop
      is no space. */
  function LastEnd(s: string, n: nat): Option<nat>
    requires n <= |s|
  {
    if n == 0 then None else if SentenceEnd(s, n) then Some(n) else LastEnd(s, n - 1)
  }

  lemma {:induction false} LastEndIsLast(s: string, n: nat)
    requires n <= |s|
    ensures match LastEnd(s, n)
            case None => forall p :: 0 <= p <= n ==> !SentenceEnd(s, p)
            case Some(e) => e <= n && SentenceEnd(s, e) && forall p :: e < p <= n ==> !SentenceEnd(s, p)
  {
    if n > 0 && !SentenceEnd(s, n) {
      LastEndIsLast(s, n - 1);
    }
  }

  /** `s[:c]`, where a negative bound counts from the end. */
  function PyPrefix(s: string, c: int): string {
    if c >= 0 then s[..Min(c, |s|)] else if |s| + c > 0 then s[..|s| + c] else ""
  }

  /** `s[-n:]` for n > 0. */
  function PySuffix(s: string, n: nat): string {
    if n >= |s| then s else s[|s| - n..]
  }

  function Lookback(n: nat): nat {
    Max(50, 15 * n / 100)
  }

  function Snap(s: string): string {
    var lookback := Lookback(|s|);
    var tail := PySuffix(s, lookback);
    match LastEnd(tail, |tail|)
    case None => s
    case Some(e) => PyPrefix(s, |s| - lookback + e)
  }

  // ---- Windows ----

  /** Where the windows start, from `start` on: every `stride` tokens until a window of `size`
      tokens reaches the end. */
  function Starts(total: nat, start: nat, size: nat, stride: nat): (r: seq<nat>)
    requires start < total && 1 <= stride <= size
    ensures |r| >= 1 && r[0] == start
    ensures forall k :: 0 <= k < |r| ==> start <= r[k] < total
    decreases total - start
  {
    if start + size >= total then [start] else [start] + Starts(total, start + stride, size, stride)
  }

  lemma {:induction false} StartsStep(total: nat, start: nat, size: nat, stride: nat, k: nat)
    requires start < total && 1 <= stride <= size
    requires k < |Starts(total, start, size, stride)|
    ensures var r := Starts(total, start, size, stride);
            && (k == |r| - 1 <==> r[k] + size >= total)
            && (k + 1 < |r| ==> r[k + 1] == r[k] + stride)
    decreases k
  {
    if k > 0 && start + size < total {
      StartsStep(total, start + stride, size, stride, k - 1);
    }
  }

  /** The tokens of the window at `lo`. */
  function Window(tokens: seq<Token>, lo: nat, size: nat): seq<Token>
    requires lo <= |tokens|
  {
    tokens[lo..Min(lo + size, |tokens|)]
  }

  /** The text of the window at `lo` before it is stripped. */
  function Piece(tokens: seq<Token>, lo: nat, size: nat): string
    requires lo <= |tokens|
  {
    if lo + size >= |tokens| then Decode(tokens, lo, |tokens|) else Snap(Decode(tokens, lo, lo + size))
  }

  function Pieces(tokens: seq<Token>, size: nat, stride: nat): seq<string>
    requires tokens != [] && 1 <= stride <= size
  {
    var starts := Starts(|tokens|, 0, size, stride);
    seq(|starts|, k requires 0 <= k < |starts| => Strip(Piece(tokens, starts[k], size)))
  }

  /** The non-empty ones among the first `n`. */
  function NonEmpty(chunks: seq<string>, n: nat): seq<string>
    requires n <= |chunks|
  {
    if n == 0 then []
    else if chunks[n - 1] != "" then NonEmpty(chunks, n - 1) + [chunks[n - 1]]
    else NonEmpty(chunks, n - 1)
  }

  /** What the chunker returns for an encoded text. */
  function Chunks(tokens: seq<Token>, chunkSize: nat, overlap: nat): Result<seq<string>, Error> {
    var size := OrDefault(chunkSize, CHUNK_SIZE_TOKENS);
    var over := OrDefault(overlap, CHUNK_OVERLAP_TOKENS);
    if over >= size then Failure(OverlapTooLarge)
    else if tokens == [] then Success([])
    else var chunks := Pieces(tokens, size, size - over); Success(NonEmpty(chunks, |chunks|))
  }

  /** `tokens` is the encoded text. */
  method ChunkText(tokens: seq<Token>, chunkSize: nat, overlap: nat) returns (r: Result<seq<string>, Error>)
    ensures r == Chunks(tokens, chunkSize, overlap)
  {
    var size := OrDefault(chunkSize, CHUNK_SIZE_TOKENS);
    var over := OrDefault(overlap, CHUNK_OVERLAP_TOKENS);
    if over >= size {
      return Failure(OverlapTooLarge);
    }
    if tokens == [] {
      return Success([]);
    }
    var chunks := CutWindows(tokens, size, size - over);
    var kept := DropEmpty(chunks);
    return Success(kept);
  }

  method CutWindows(tokens: seq<Token>, size: nat, stride: nat) returns (chunks: seq<string>)
    requires tokens != [] && 1 <= stride <= size
    ensures chunks == Pieces(tokens, size, stride)
  {
    ghost var starts := Starts(|tokens|, 0, size, stride);
    StartsPlaced(|tokens|, size, stride);
    chunks := CutAt(tokens, size, stride, starts);
  }

  /** What `Starts` gives, from neighbour to neighbour. */
  ghost predicate Placed(starts: seq<nat>, total: nat, size: nat, stride: nat) {
    && |starts| >= 1 && starts[0] == 0
    && (forall k :: 0 <= k < |starts| ==> starts[k] < total)
    && (forall k :: 0 <= k < |starts| ==> (k == |starts| - 1 <==> starts[k] + size >= total))
    && (forall k :: 1 <= k < |starts| ==> starts[k] == starts[k - 1] + stride)
  }

  lemma StartsPlaced(total: nat, size: nat, stride: nat)
    requires 0 < total && 1 <= stride <= size
    ensures Placed(Starts(total, 0, size, stride), total, size, stride)
  {
    var starts := Starts(total, 0, size, stride);
    forall k | 0 <= k < |starts|
      ensures k == |starts| - 1 <==> starts[k] + size >= total
      ensures k > 0 ==> starts[k] == starts[k - 1] + stride
    {
      StartsStep(total, 0, size, stride, k);
      if k > 0 {
        StartsStep(total, 0, size, stride, k - 1);
      }
    }
  }

  method CutAt(tokens: seq<Token>, size: nat, stride: nat, ghost starts: seq<nat>) returns (chunks: seq<string>)
    requires tokens != [] && 1 <= stride <= size && Placed(starts, |tokens|, size, stride)
    ensures |chunks| == |starts|
    ensures forall k :: 0 <= k < |chunks| ==> chunks[k] == Strip(Piece(tokens, starts[k], size))
  {
    chunks := [];
    var start := 0;
    var total := |tokens|;
    while start < total
      invariant |chunks| < |starts| && start == starts[|chunks|]
      invariant forall k :: 0 <= k < |chunks| ==> chunks[k] == Strip(Piece(tokens, starts[k], size))
      decreases total - start
    {
      var end := Min(start + size, total);
      var chunk := CutWindow(tokens, start, end, size);
      chunks := chunks + [chunk];
      if end >= total {
        break;
      }
      start := start + stride;
    }
  }

  /** One window's text. */
  method CutWindow(tokens: seq<Token>, start: nat, end: nat, size: nat) returns (chunk: string)
    requires start < |tokens| && end == Min(start + size, |tokens|)
    ensures chunk == Strip(Piece(tokens, start, size))
  {
    chunk := Decode(tokens, start, end);
    if end < |tokens| {
      chunk := Snap(chunk);
    }
    chunk := Strip(chunk);
  }

  method DropEmpty(chunks: seq<string>) returns (kept: seq<string>)
    ensures kept == NonEmpty(chunks, |chunks|)
  {
    kept := [];
    for i := 0 to |chunks|
      invariant kept == NonEmpty(chunks, i)
    {
      if chunks[i] != "" {
        kept := kept + [chunks[i]];
      }
    }
  }

  // ---- Windows, round trip ----

  function CeilDiv(a: nat, b: nat): nat
    requires b > 0
  {
    (a + b - 1) / b
  }

  lemma DivAddOne(x: nat, b: nat)
    requires b > 0
    ensures (x + b) / b == x / b + 1
  {
    var q := x / b;
    assert x == q * b + x % b;
    assert x + b == (q + 1) * b + x % b;
    DivUnique(x + b, b, q + 1, x % b);
  }

  lemma {:induction false} MulBelow(p: nat, q: nat, b: nat)
    requires p < q
    ensures p * b + b <= q * b
  {
    assert q * b == (q - 1) * b + b;
    if p < q - 1 {
      MulBelow(p, q - 1, b);
    }
  }

  lemma DivUnique(x: nat, b: nat, q: nat, r: nat)
    requires b > 0 && x == q * b + r && r < b
    ensures x / b == q
  {
    var q' := x / b;
    assert x == q' * b + x % b;
    if q < q' {
      MulBelow(q, q', b);
    } else if q' < q {
      MulBelow(q', q, b);
    }
  }

  lemma CeilDivStep(a: nat, b: nat)
    requires b > 0 && a > 0
    ensures CeilDiv(a, b) == 1 + CeilDiv(if a >= b then a - b else 0, b)
  {
    DivAddOne(a - 1, b);
    if a < b {
      DivUnique(a - 1, b, 0, a - 1);
      DivUnique(b - 1, b, 0, b - 1);
    }
  }

  /** How many windows there are. */
  lemma {:induction false} WindowCount(total: nat, start: nat, size: nat, stride: nat)
    requires start < total && 1 <= stride <= size
    ensures |Starts(total, start, size, stride)|
         == 1 + CeilDiv(if total - start > size then total - start - size else 0, stride)
    decreases total - start
  {
    if start + size < total {
      WindowCount(total, start + stride, size, stride);
      CeilDivStep(total - start - size, stride);
    } else {
      DivUnique(stride - 1, stride, 0, stride - 1);
    }
  }

  /** Each window has at most `size` tokens, all but the last exactly; neighbours share exactly the
      `size - stride` overlap tokens; the last one reaches beyond the one before it. */
  lemma NeighboursOverlap(tokens: seq<Token>, size: nat, stride: nat, k: nat)
    requires tokens != [] && 1 <= stride <= size
    requires k + 1 < |Starts(|tokens|, 0, size, stride)|
    ensures var starts := Starts(|tokens|, 0, size, stride);
            var w, w' := Window(tokens, starts[k], size), Window(tokens, starts[k + 1], size);
            && |w| == size
            && size - stride < |w'| <= size
            && w[stride..] == w'[..size - stride]
  {
    var starts := Starts(|tokens|, 0, size, stride);
    StartsStep(|tokens|, 0, size, stride, k);
    StartsStep(|tokens|, 0, size, stride, k + 1);
  }

  /** The first window, then each later one without its first `overlap` tokens. */
  function Rebuild(ws: seq<seq<Token>>, n: nat, overlap: nat): seq<Token>
    requires 1 <= n <= |ws| && forall i :: 1 <= i < |ws| ==> overlap < |ws[i]|
  {
    if n == 1 then ws[0] else Rebuild(ws, n - 1, overlap) + ws[n - 1][overlap..]
  }

  function Windows(tokens: seq<Token>, size: nat, stride: nat): seq<seq<Token>>
    requires tokens != [] && 1 <= stride <= size
  {
    var starts := Starts(|tokens|, 0, size, stride);
    seq(|starts|, k requires 0 <= k < |starts| => Window(tokens, starts[k], size))
  }

  lemma LaterWindowsReachOn(tokens: seq<Token>, size: nat, stride: nat)
    requires tokens != [] && 1 <= stride <= size
    ensures var ws := Windows(tokens, size, stride);
            forall i :: 1 <= i < |ws| ==> size - stride < |ws[i]|
  {
    var ws := Windows(tokens, size, stride);
    forall i | 1 <= i < |ws|
      ensures size - stride < |ws[i]|
    {
      NeighboursOverlap(tokens, size, stride, i - 1);
    }
  }

  lemma TakeJoin(tokens: seq<Token>, a: nat, b: nat, c: nat, w: seq<Token>)
    requires a <= b <= c <= |tokens| && w == tokens[a..c]
    ensures tokens[..b] + w[b - a..] == tokens[..c]
  {
  }

  lemma {:induction false} RebuildPrefix(tokens: seq<Token>, ws: seq<seq<Token>>, starts: seq<nat>, size: nat,
                                         overlap: nat, n: nat)
    requires overlap < size && 1 <= n <= |ws| == |starts| && starts[0] == 0
    requires forall i :: 0 <= i < |ws| ==> starts[i] < |tokens| && ws[i] == Window(tokens, starts[i], size)
    requires forall i :: 1 <= i < |ws| ==> overlap < |ws[i]| && starts[i] == starts[i - 1] + size - overlap
    ensures Rebuild(ws, n, overlap) == tokens[..Min(starts[n - 1] + size, |tokens|)]
  {
    if n > 1 {
      RebuildPrefix(tokens, ws, starts, size, overlap, n - 1);
      RebuildNext(tokens, ws[n - 1], starts[n - 2], starts[n - 1], size, overlap);
    }
  }

  lemma RebuildNext(tokens: seq<Token>, w: seq<Token>, before: nat, lo: nat, size: nat, overlap: nat)
    requires lo < |tokens| && w == Window(tokens, lo, size) && overlap < |w| && lo == before + size - overlap
    ensures tokens[..Min(before + size, |tokens|)] + w[overlap..] == tokens[..Min(lo + size, |tokens|)]
  {
    TakeJoin(tokens, lo, lo + overlap, Min(lo + size, |tokens|), w);
  }

  /** Round trip: the loop makes `1 + ceil(max(0, total - size) / stride)` windows, and dropping
      each later window's overlap and joining what is left gives the token sequence back. */
  lemma WindowsRoundTrip(tokens: seq<Token>, size: nat, overlap: nat)
    requires tokens != [] && overlap < size
    ensures var ws := Windows(tokens, size, size - overlap);
            && |ws| == 1 + CeilDiv(if |tokens| > size then |tokens| - size else 0, size - overlap)
            && (forall i :: 1 <= i < |ws| ==> overlap < |ws[i]|)
            && Rebuild(ws, |ws|, overlap) == tokens
  {
    var ws := Windows(tokens, size, size - overlap);
    WindowCount(|tokens|, 0, size, size - overlap);
    LaterWindowsReachOn(tokens, size, size - overlap);
    var starts := Starts(|tokens|, 0, size, size - overlap);
    forall i | 1 <= i < |ws|
      ensures starts[i] == starts[i - 1] + size - overlap
    {
      StartsStep(|tokens|, 0, size, size - overlap, i - 1);
    }
    RebuildPrefix(tokens, ws, starts, size, overlap, |ws|);
    StartsStep(|tokens|, 0, size, size - overlap, |ws| - 1);
  }

  // ---- What is returned ----

  lemma {:induction false} NonEmptyKept(chunks: seq<string>, n: nat) returns (kept: seq<nat>)
    requires n <= |chunks|
    ensures |kept| == |NonEmpty(chunks, n)|
    ensures forall i, j :: 0 <= i < j < |kept| ==> kept[i] < kept[j]
    ensures forall j :: 0 <= j < |kept| ==> kept[j] < n && NonEmpty(chunks, n)[j] == chunks[kept[j]]
    ensures forall k :: 0 <= k < n ==> (k in kept <==> chunks[k] != "")
  {
    kept := [];
    if n > 0 {
      kept := NonEmptyKept(chunks, n - 1);
      if chunks[n - 1] != "" {
        kept := kept + [n - 1];
      }
    }
  }

  lemma {:induction false} StartsAt(total: nat, size: nat, stride: nat, k: nat)
    requires 0 < total && 1 <= stride <= size && k < |Starts(total, 0, size, stride)|
    ensures Starts(total, 0, size, stride)[k] == k * stride
  {
    if k > 0 {
      StartsAt(total, size, stride, k - 1);
      StartsStep(total, 0, size, stride, k - 1);
      assert k * stride == (k - 1) * stride + stride;
    }
  }

  /** How many windows a text of `total` tokens has. */
  function WindowsOf(total: nat, size: nat, stride: nat): nat
    requires stride > 0
  {
    1 + CeilDiv(if total > size then total - size else 0, stride)
  }

  /** Chunk `j` is what window `w` leaves, stripped. */
  predicate IsPiece(chunk: string, tokens: seq<Token>, w: nat, size: nat, stride: nat) {
    w * stride <= |tokens| && chunk == Strip(Piece(tokens, w * stride, size))
  }

  /** Chunk `j` is from window `kept[j]`, in the order of the windows, and a window without a chunk has no text. */
  ghost predicate InOrder(r: seq<string>, tokens: seq<Token>, size: nat, stride: nat, kept: seq<nat>)
    requires stride > 0
  {
    && |kept| == |r|
    && (forall i, j :: 0 <= i < j < |kept| ==> kept[i] < kept[j])
    && (forall j :: 0 <= j < |kept| ==>
          kept[j] < WindowsOf(|tokens|, size, stride) && IsPiece(r[j], tokens, kept[j], size, stride))
    && (forall w: nat :: w < WindowsOf(|tokens|, size, stride) && w !in kept ==> IsPiece("", tokens, w, size, stride))
  }

  lemma PiecesPlaced(tokens: seq<Token>, size: nat, stride: nat)
    requires tokens != [] && 1 <= stride <= size
    ensures |Pieces(tokens, size, stride)| == WindowsOf(|tokens|, size, stride)
    ensures forall w: nat :: w < |Pieces(tokens, size, stride)| ==>
              IsPiece(Pieces(tokens, size, stride)[w], tokens, w, size, stride)
  {
    var chunks := Pieces(tokens, size, stride);
    WindowCount(|tokens|, 0, size, stride);
    forall w: nat | w < |chunks|
      ensures IsPiece(chunks[w], tokens, w, size, stride)
    {
      StartsAt(|tokens|, size, stride, w);
    }
  }

  lemma PiecesInOrder(tokens: seq<Token>, size: nat, stride: nat, r: seq<string>) returns (kept: seq<nat>)
    requires tokens != [] && 1 <= stride <= size
    requires var chunks := Pieces(tokens, size, stride); r == NonEmpty(chunks, |chunks|)
    ensures InOrder(r, tokens, size, stride, kept)
  {
    var chunks := Pieces(tokens, size, stride);
    PiecesPlaced(tokens, size, stride);
    kept := NonEmptyKept(chunks, |chunks|);
    assert forall w: nat :: w < |chunks| && w !in kept ==>
        chunks[w] == "" && IsPiece(chunks[w], tokens, w, size, stride);
  }

  /** An error iff the overlap is not smaller than the size; no chunks for no tokens. */
  lemma ChunksFailIff(tokens: seq<Token>, chunkSize: nat, overlap: nat, size: nat, over: nat)
    requires size == (if chunkSize == 0 then 512 else chunkSize) && over == if overlap == 0 then 64 else overlap
    ensures Chunks(tokens, chunkSize, overlap) == Failure(OverlapTooLarge) <==> over >= size
    ensures over < size && tokens == [] ==> Chunks(tokens, chunkSize, overlap) == Success([])
    ensures over < size ==> Chunks(tokens, chunkSize, overlap).Success?
  {
  }

  lemma ChunksFromPieces(tokens: seq<Token>, chunkSize: nat, overlap: nat, size: nat, over: nat)
    requires size == (if chunkSize == 0 then 512 else chunkSize) && over == if overlap == 0 then 64 else overlap
    requires over < size && tokens != []
    ensures var chunks := Pieces(tokens, size, size - over);
            Chunks(tokens, chunkSize, overlap) == Success(NonEmpty(chunks, |chunks|))
  {
  }

  /** What the chunker returns, with size and overlap, or 512 and 64 where they are zero: the stripped pieces of
      its windows, in the order of the windows, and only those without any text are left out. Window `w` starts
      at `w` times the stride; `kept` says which chunk is from which window. */
  lemma ChunksInOrder(tokens: seq<Token>, chunkSize: nat, overlap: nat, size: nat, over: nat, r: seq<string>)
    returns (kept: seq<nat>)
    requires size == (if chunkSize == 0 then 512 else chunkSize) && over == if overlap == 0 then 64 else overlap
    requires over < size && tokens != [] && Chunks(tokens, chunkSize, overlap) == Success(r)
    ensures InOrder(r, tokens, size, size - over, kept)
  {
    ChunksFromPieces(tokens, chunkSize, overlap, size, over);
    kept := PiecesInOrder(tokens, size, size - over, r);
  }
}
