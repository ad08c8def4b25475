/**
What of the text the chunks keep. A snapped window gives up its last characters; they are not
lost when the next window starts early enough.
*/
module ChunkCoverage {
  import opened Wrappers
  import opened Strings
  import opened Arithmetic
  import opened Chunker

  // ---- The snap ----

  /** A stop and white space stand before `p`. */
  predicate EndsAt(s: string, p: nat) {
    2 <= p <= |s| && (s[p - 2] == '.' || s[p - 2] == '!' || s[p - 2] == '?') && IsSpace(s[p - 1])
  }

  /** From 50 characters on, the snap looks at the last 15 percent, or the last 50 characters if that is more. It keeps
      the text up to the last sentence end there, or all of it when there is none; it drops at most two characters
      less than it looks at. */
  lemma SnapKeepsSentences(s: string)
    requires |s| >= 50
    ensures var looked := |s| - (if 15 * |s| / 100 > 50 then 15 * |s| / 100 else 50);
            || (Snap(s) == s && forall p :: looked + 2 <= p <= |s| ==> !EndsAt(s, p))
            || exists c :: (&& looked + 2 <= c <= |s| && EndsAt(s, c) && Snap(s) == s[..c]
                            && forall p :: c < p <= |s| ==> !EndsAt(s, p))
  {
    var looked := |s| - Lookback(|s|);
    var tail := PySuffix(s, Lookback(|s|));
    assert tail == s[looked..];
    assert forall p :: looked + 2 <= p <= |s| ==> EndsAt(s, p) == SentenceEnd(tail, p - looked);
    LastEndIsLast(tail, |tail|);
    if LastEnd(tail, |tail|).Some? {
      var c := looked + LastEnd(tail, |tail|).value;
      assert EndsAt(s, c) && Snap(s) == s[..c];
    }
  }

  /** Below 50 characters the cut is misplaced: where the text has a sentence end, the snap ends
      just after the last one for exactly one length. */
  lemma ShortSnapMissesIff(s: string)
    requires |s| < 50 && LastEnd(s, |s|).Some?
    ensures var e := LastEnd(s, |s|).value;
            e <= |s| && (Snap(s) == s[..e] <==> |s| == 25 && e < 25)
  {
    LastEndIsLast(s, |s|);
    var e := LastEnd(s, |s|).value;
    assert Lookback(|s|) == 50;
    assert |Snap(s)| == if |s| + e >= 50 then |s| - 50 + e else Max(0, 2 * |s| - 50 + e);
  }

  lemma SnapIsPrefix(s: string)
    ensures |Snap(s)| <= |s| && Snap(s) == s[..|Snap(s)|]
  {
  }

  // ---- Where windows lie in the text ----

  function Text(tokens: seq<Token>): string {
    Decode(tokens, 0, |tokens|)
  }

  /** The character position of token `i`. */
  function Off(tokens: seq<Token>, i: nat): nat
    requires i <= |tokens|
  {
    |Decode(tokens, 0, i)|
  }

  /** The character position where the piece of the window at `lo` ends. */
  function EndOf(tokens: seq<Token>, lo: nat, size: nat): nat
    requires lo <= |tokens|
  {
    Off(tokens, lo) + |Piece(tokens, lo, size)|
  }

  lemma {:induction false} DecodeSplit(tokens: seq<Token>, a: nat, b: nat, c: nat)
    requires a <= b <= c <= |tokens|
    ensures Decode(tokens, a, c) == Decode(tokens, a, b) + Decode(tokens, b, c)
    decreases c - b
  {
    if b < c {
      DecodeSplit(tokens, a, b, c - 1);
    }
  }

  /** A run of tokens decodes to the text between its offsets. */
  lemma DecodeIsText(tokens: seq<Token>, lo: nat, hi: nat)
    requires lo <= hi <= |tokens|
    ensures Off(tokens, lo) <= Off(tokens, hi) <= |Text(tokens)|
    ensures Decode(tokens, lo, hi) == Text(tokens)[Off(tokens, lo)..Off(tokens, hi)]
  {
    DecodeSplit(tokens, 0, lo, hi);
    DecodeSplit(tokens, 0, hi, |tokens|);
  }

  /** The piece of a window is the text from the window's start; only the last one has to reach
      the window's end. */
  lemma PieceIsText(tokens: seq<Token>, lo: nat, size: nat)
    requires lo <= |tokens|
    ensures EndOf(tokens, lo, size) <= |Text(tokens)|
    ensures Piece(tokens, lo, size) == Text(tokens)[Off(tokens, lo)..EndOf(tokens, lo, size)]
    ensures lo + size >= |tokens| ==> EndOf(tokens, lo, size) == |Text(tokens)|
  {
    var hi := Min(lo + size, |tokens|);
    DecodeIsText(tokens, lo, hi);
    SnapIsPrefix(Decode(tokens, lo, hi));
  }

  // ---- Coverage ----

  predicate Holds(tokens: seq<Token>, lo: nat, size: nat, p: nat)
    requires lo <= |tokens|
  {
    Off(tokens, lo) <= p < EndOf(tokens, lo, size)
  }

  /** Some window's piece holds the character at `p`. */
  predicate Covered(tokens: seq<Token>, size: nat, stride: nat, p: nat)
    requires tokens != [] && 1 <= stride <= size
  {
    var starts := Starts(|tokens|, 0, size, stride);
    exists k :: 0 <= k < |starts| && Holds(tokens, starts[k], size, p)
  }

  /** One of the first `k + 1` pieces reaches the start of window `k + 1`. */
  predicate Reaches(tokens: seq<Token>, size: nat, stride: nat, k: nat)
    requires tokens != [] && 1 <= stride <= size && k + 1 < |Starts(|tokens|, 0, size, stride)|
  {
    var starts := Starts(|tokens|, 0, size, stride);
    exists j :: 0 <= j <= k && EndOf(tokens, starts[j], size) >= Off(tokens, starts[k + 1])
  }

  lemma {:induction false} StartsGrow(total: nat, size: nat, stride: nat, j: nat, k: nat)
    requires 0 < total && 1 <= stride <= size
    requires j <= k < |Starts(total, 0, size, stride)|
    ensures Starts(total, 0, size, stride)[j] <= Starts(total, 0, size, stride)[k]
    decreases k
  {
    if j < k {
      StartsGrow(total, size, stride, j, k - 1);
      StartsStep(total, 0, size, stride, k - 1);
    }
  }

  /** The last of the first `n` windows that starts at or before `p`. */
  lemma {:induction false} LastStartBefore(tokens: seq<Token>, starts: seq<nat>, n: nat, p: nat) returns (m: nat)
    requires 1 <= n <= |starts| && starts[0] == 0 && forall k :: 0 <= k < |starts| ==> starts[k] <= |tokens|
    ensures m < n && Off(tokens, starts[m]) <= p
    ensures m + 1 < n ==> p < Off(tokens, starts[m + 1])
    decreases n
  {
    if n == 1 || Off(tokens, starts[n - 1]) <= p {
      m := n - 1;
      assert Decode(tokens, 0, 0) == "";
    } else {
      m := LastStartBefore(tokens, starts, n - 1, p);
    }
  }

  lemma CoveredIfReached(tokens: seq<Token>, size: nat, stride: nat, p: nat)
    requires tokens != [] && 1 <= stride <= size && p < |Text(tokens)|
    requires forall k {:trigger Reaches(tokens, size, stride, k)} ::
               0 <= k && k + 1 < |Starts(|tokens|, 0, size, stride)| ==> Reaches(tokens, size, stride, k)
    ensures Covered(tokens, size, stride, p)
  {
    var starts := Starts(|tokens|, 0, size, stride);
    var m := LastStartBefore(tokens, starts, |starts|, p);
    if m + 1 == |starts| {
      StartsStep(|tokens|, 0, size, stride, m);
      PieceIsText(tokens, starts[m], size);
      assert Holds(tokens, starts[m], size, p);
    } else {
      assert Reaches(tokens, size, stride, m);
      var j :| 0 <= j <= m && EndOf(tokens, starts[j], size) >= Off(tokens, starts[m + 1]);
      StartsGrow(|tokens|, size, stride, j, m);
      DecodeIsText(tokens, starts[j], starts[m]);
      assert Holds(tokens, starts[j], size, p);
    }
  }

  lemma ReachedIfCovered(tokens: seq<Token>, size: nat, stride: nat, k: nat)
    requires tokens != [] && 1 <= stride <= size && k + 1 < |Starts(|tokens|, 0, size, stride)|
    requires forall p :: 0 <= p < |Text(tokens)| ==> Covered(tokens, size, stride, p)
    ensures Reaches(tokens, size, stride, k)
  {
    var starts := Starts(|tokens|, 0, size, stride);
    var next := Off(tokens, starts[k + 1]);
    if next == 0 {
      assert EndOf(tokens, starts[k], size) >= next;
    } else {
      DecodeIsText(tokens, starts[k + 1], |tokens|);
      assert Covered(tokens, size, stride, next - 1);
      var j :| 0 <= j < |starts| && Holds(tokens, starts[j], size, next - 1);
      if j > k {
        StartsGrow(|tokens|, size, stride, k + 1, j);
        DecodeIsText(tokens, starts[k + 1], starts[j]);
      }
      assert j <= k;
    }
  }

  /** No character is lost exactly when each later window's start is reached by an earlier
      piece. */
  lemma CoveredIff(tokens: seq<Token>, size: nat, stride: nat)
    requires tokens != [] && 1 <= stride <= size
    ensures (forall p :: 0 <= p < |Text(tokens)| ==> Covered(tokens, size, stride, p))
       <==> (forall k {:trigger Reaches(tokens, size, stride, k)} ::
               0 <= k && k + 1 < |Starts(|tokens|, 0, size, stride)| ==> Reaches(tokens, size, stride, k))
  {
    if forall p :: 0 <= p < |Text(tokens)| ==> Covered(tokens, size, stride, p) {
      forall k {:trigger Reaches(tokens, size, stride, k)}
        | 0 <= k && k + 1 < |Starts(|tokens|, 0, size, stride)|
        ensures Reaches(tokens, size, stride, k)
      {
        ReachedIfCovered(tokens, size, stride, k);
      }
    }
    if forall k {:trigger Reaches(tokens, size, stride, k)} ::
         0 <= k && k + 1 < |Starts(|tokens|, 0, size, stride)| ==> Reaches(tokens, size, stride, k)
    {
      forall p | 0 <= p < |Text(tokens)|
        ensures Covered(tokens, size, stride, p)
      {
        CoveredIfReached(tokens, size, stride, p);
      }
    }
  }

  // ---- A condition on the overlap ----

  /** Window `k` has at least 50 characters, and its overlap tokens decode to at least as many
      characters, less two, as the snap looks back over. */
  predicate OverlapIsLong(tokens: seq<Token>, size: nat, stride: nat, k: nat)
    requires tokens != [] && 1 <= stride <= size && k + 1 < |Starts(|tokens|, 0, size, stride)|
  {
    var lo := Starts(|tokens|, 0, size, stride)[k];
    && lo + size <= |tokens|
    && |Decode(tokens, lo, lo + size)| >= 50
    && |Decode(tokens, lo + stride, lo + size)| + 2 >= Lookback(|Decode(tokens, lo, lo + size)|)
  }

  lemma SnapDrops(s: string)
    requires |s| >= 50
    ensures |Snap(s)| + Lookback(|s|) >= |s| + 2
  {
    SnapKeepsSentences(s);
  }

  lemma OffStep(tokens: seq<Token>, lo: nat, hi: nat)
    requires lo <= hi <= |tokens|
    ensures Off(tokens, hi) == Off(tokens, lo) + |Decode(tokens, lo, hi)|
  {
    DecodeSplit(tokens, 0, lo, hi);
  }

  lemma LongOverlapReaches(tokens: seq<Token>, size: nat, stride: nat, k: nat)
    requires tokens != [] && 1 <= stride <= size && k + 1 < |Starts(|tokens|, 0, size, stride)|
    requires OverlapIsLong(tokens, size, stride, k)
    ensures Reaches(tokens, size, stride, k)
  {
    var starts := Starts(|tokens|, 0, size, stride);
    var lo := starts[k];
    StartsStep(|tokens|, 0, size, stride, k);
    LongOverlapEnd(tokens, size, stride, lo);
    assert EndOf(tokens, starts[k], size) >= Off(tokens, starts[k + 1]);
  }

  lemma LongOverlapEnd(tokens: seq<Token>, size: nat, stride: nat, lo: nat)
    requires stride <= size && lo + size < |tokens|
    requires |Decode(tokens, lo, lo + size)| >= 50
    requires |Decode(tokens, lo + stride, lo + size)| + 2 >= Lookback(|Decode(tokens, lo, lo + size)|)
    ensures EndOf(tokens, lo, size) >= Off(tokens, lo + stride)
  {
    SnapDrops(Decode(tokens, lo, lo + size));
    OffStep(tokens, lo, lo + size);
    OffStep(tokens, lo + stride, lo + size);
  }

  lemma {:induction false} NonEmptyKeeps(chunks: seq<string>, n: nat, k: nat)
    requires k < n <= |chunks| && chunks[k] != ""
    ensures chunks[k] in NonEmpty(chunks, n)
  {
    if k < n - 1 {
      NonEmptyKeeps(chunks, n - 1, k);
    }
  }

  /** `chunk` is the text from `p - i` on, so that its character `i` is the one at `p`. */
  predicate Shows(text: string, p: nat, chunk: string, i: nat) {
    i < |chunk| && i <= p && p - i + |chunk| <= |text| && chunk == text[p - i..p - i + |chunk|]
  }

  lemma StrippedShows(text: string, off: nat, piece: string, p: nat) returns (i: nat)
    requires off + |piece| <= |text| && piece == text[off..off + |piece|]
    requires off <= p < off + |piece| && !IsSpace(text[p])
    ensures Shows(text, p, Strip(piece), i)
  {
    var a, b := StripSpan(piece);
    assert piece[p - off] == text[p];
    i := p - off - a;
    SliceSlice(text, off, |piece|, a, b);
    assert p - i == off + a && |Strip(piece)| == b - a;
  }

  lemma CoveredIsShown(tokens: seq<Token>, size: nat, stride: nat, p: nat)
    requires tokens != [] && 1 <= stride <= size && p < |Text(tokens)|
    requires Covered(tokens, size, stride, p) && !IsSpace(Text(tokens)[p])
    ensures var pieces := Pieces(tokens, size, stride);
            exists c, i :: c in NonEmpty(pieces, |pieces|) && Shows(Text(tokens), p, c, i)
  {
    var starts := Starts(|tokens|, 0, size, stride);
    var pieces := Pieces(tokens, size, stride);
    var k :| 0 <= k < |starts| && Holds(tokens, starts[k], size, p);
    var i := HeldIsShown(tokens, starts[k], size, p);
    assert Shows(Text(tokens), p, pieces[k], i);
    NonEmptyKeeps(pieces, |pieces|, k);
  }

  lemma HeldIsShown(tokens: seq<Token>, lo: nat, size: nat, p: nat) returns (i: nat)
    requires lo <= |tokens| && p < |Text(tokens)| && Holds(tokens, lo, size, p) && !IsSpace(Text(tokens)[p])
    ensures Shows(Text(tokens), p, Strip(Piece(tokens, lo, size)), i)
  {
    PieceIsText(tokens, lo, size);
    i := StrippedShows(Text(tokens), Off(tokens, lo), Piece(tokens, lo, size), p);
  }

  /** No text is lost when every overlap decodes to enough characters: each character that is no
      white space stands in a returned chunk, among the characters it has around it in the text. */
  lemma LongOverlapLosesNothing(tokens: seq<Token>, chunkSize: nat, overlap: nat, p: nat)
    requires var size, over := OrDefault(chunkSize, CHUNK_SIZE_TOKENS), OrDefault(overlap, CHUNK_OVERLAP_TOKENS);
             over < size && tokens != [] && forall k {:trigger OverlapIsLong(tokens, size, size - over, k)} ::
               0 <= k && k + 1 < |Starts(|tokens|, 0, size, size - over)| ==>
                 OverlapIsLong(tokens, size, size - over, k)
    requires p < |Text(tokens)| && !IsSpace(Text(tokens)[p])
    ensures var r := Chunks(tokens, chunkSize, overlap);
            r.Success? && exists c, i :: c in r.value && Shows(Text(tokens), p, c, i)
  {
    var size, over := OrDefault(chunkSize, CHUNK_SIZE_TOKENS), OrDefault(overlap, CHUNK_OVERLAP_TOKENS);
    forall k {:trigger Reaches(tokens, size, size - over, k)}
      | 0 <= k && k + 1 < |Starts(|tokens|, 0, size, size - over)|
      ensures Reaches(tokens, size, size - over, k)
    {
      assert OverlapIsLong(tokens, size, size - over, k);
      LongOverlapReaches(tokens, size, size - over, k);
    }
    CoveredIfReached(tokens, size, size - over, p);
    CoveredIsShown(tokens, size, size - over, p);
  }

  // ---- The default overlap is not enough ----

  function Letter(i: nat): string {
    if i == 436 then "." else if i == 437 then " " else "a"
  }

  /** 600 one-character tokens, with one sentence end after character 437. */
  function LossyTokens(): seq<Token> {
    seq(600, i requires 0 <= i => Letter(i))
  }

  lemma {:induction false} LossyDecode(lo: nat, hi: nat)
    requires lo <= hi <= 600
    ensures |Decode(LossyTokens(), lo, hi)| == hi - lo
    ensures forall i :: lo <= i < hi ==> Decode(LossyTokens(), lo, hi)[i - lo] == Letter(i)[0]
    decreases hi - lo
  {
    if lo < hi {
      LossyDecode(lo, hi - 1);
    }
  }

  lemma LossySnap(s: string)
    requires |s| == 512 && forall i :: 0 <= i < 512 ==> s[i] == Letter(i)[0]
    ensures |Snap(s)| == 438
  {
    assert Lookback(512) == 76;
    SnapKeepsSentences(s);
    assert IsSpace(s[437]) && s[436] == '.';
    forall q | 438 < q <= 512
      ensures !EndsAt(s, q)
    {
      assert s[q - 2] == Letter(q - 2)[0];
    }
    assert EndsAt(s, 438);
  }

  lemma LossyStarts()
    ensures Starts(600, 0, 512, 448) == [0, 448]
  {
  }

  lemma LossyOff(i: nat)
    requires i <= 600
    ensures Off(LossyTokens(), i) == i
  {
    LossyDecode(0, i);
  }

  lemma LossyFirst(tokens: seq<Token>, lo: nat, size: nat)
    requires tokens == LossyTokens() && lo == 0 && size == 512
    ensures |Piece(tokens, lo, size)| == 438
  {
    LossyDecode(lo, size);
    LossySnapped(Decode(tokens, lo, size), lo);
  }

  lemma LossySnapped(s: string, lo: nat)
    requires lo == 0 && |s| == 512 && forall i :: lo <= i < 512 ==> s[i - lo] == Letter(i)[0]
    ensures |Snap(s)| == 438
  {
    forall i | 0 <= i < 512
      ensures s[i] == Letter(i)[0]
    {
      assert s[i - lo] == Letter(i)[0];
    }
    LossySnap(s);
  }

  lemma LossyText(tokens: seq<Token>, lo: nat, p: nat)
    requires tokens == LossyTokens() && lo == 0 && p < 600
    ensures |Decode(tokens, lo, |tokens|)| == 600 && Decode(tokens, lo, |tokens|)[p] == Letter(p)[0]
  {
    LossyDecode(lo, |tokens|);
    assert Decode(tokens, lo, |tokens|)[p - lo] == Letter(p)[0];
  }

  /** Neither window holds character `p`: the first is snapped before it, the second starts after
      it. */
  lemma LossyWindows(tokens: seq<Token>, lo: nat, size: nat, next: nat, p: nat)
    requires tokens == LossyTokens() && lo == 0 && size == 512 && next == 448 && 438 <= p < 448
    ensures !Holds(tokens, lo, size, p) && !Holds(tokens, next, size, p)
  {
    LossyOff(lo);
    LossyOff(next);
    LossyFirst(tokens, lo, size);
  }

  lemma TwoWindows(tokens: seq<Token>, size: nat, stride: nat, p: nat, a: nat, b: nat)
    requires tokens != [] && 1 <= stride <= size && a <= |tokens| && b <= |tokens|
    requires Starts(|tokens|, 0, size, stride) == [a, b]
    requires !Holds(tokens, a, size, p) && !Holds(tokens, b, size, p)
    ensures !Covered(tokens, size, stride, p)
  {
  }

  /** With the defaults, 512 and 64, some texts lose characters: here 438 to 447, between the end
      of the snapped first chunk and the start of the second. */
  lemma DefaultLosesText(p: nat)
    requires 438 <= p < 448
    ensures p < |Text(LossyTokens())| && !IsSpace(Text(LossyTokens())[p])
    ensures !Covered(LossyTokens(), CHUNK_SIZE_TOKENS, CHUNK_SIZE_TOKENS - CHUNK_OVERLAP_TOKENS, p)
  {
    LossyText(LossyTokens(), 0, p);
    LossyUncovered(LossyTokens(), CHUNK_SIZE_TOKENS, CHUNK_SIZE_TOKENS - CHUNK_OVERLAP_TOKENS, p, 0);
  }

  lemma LossyUncovered(tokens: seq<Token>, size: nat, stride: nat, p: nat, lo: nat)
    requires tokens == LossyTokens() && size == 512 && stride == 448 && 438 <= p < 448 && lo == 0
    ensures !Covered(tokens, size, stride, p)
  {
    LossyStarts();
    LossyWindows(tokens, lo, size, stride, p);
    TwoWindows(tokens, size, stride, p, lo, stride);
  }
}
