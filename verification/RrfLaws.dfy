/** What the fused list promises about the two lists it is made of. */
module RrfLaws {
  import opened Wrappers
  import opened Retrieved
  import opened Ranking
  import opened RrfFusion

  // ---- What is in the list ----

  /** The item at place `p` is the entry of the id it comes from. */
  lemma FusedAt(bm25: seq<Chunk>, dense: seq<Chunk>, w: Weights, p: nat) returns (i: nat)
    requires p < |Fused(bm25, dense, w)|
    ensures i < |FusedIds(bm25, dense)| && i == Order(Totals(bm25, dense, w), |Totals(bm25, dense, w)|)[p]
    ensures Fused(bm25, dense, w)[p] == Entry(bm25, dense, w, FusedIds(bm25, dense)[i])
    ensures Fused(bm25, dense, w)[p].id == FusedIds(bm25, dense)[i]
  {
    i := Order(Totals(bm25, dense, w), |Totals(bm25, dense, w)|)[p];
    EntryHasId(bm25, dense, w, FusedIds(bm25, dense)[i]);
  }

  lemma IdsJoined(bm25: seq<Chunk>, dense: seq<Chunk>, id: string)
    ensures id in FusedIds(bm25, dense) <==> id in Ids(bm25) || id in Ids(dense)
  {
    var all := Ids(bm25) + Ids(dense);
    FirstSeenHas(all, |all|, id);
    assert id in all <==> id in Ids(bm25) || id in Ids(dense);
  }

  /** The entry of an id carries the data of its last lexical result, or of its first dense one. */
  lemma EntryHasId(bm25: seq<Chunk>, dense: seq<Chunk>, w: Weights, id: string)
    requires id in FusedIds(bm25, dense)
    ensures var e := Entry(bm25, dense, w, id);
            && e.id == id && e.rrfScore == Some(Total(bm25, dense, w, id))
            && exists c :: (&& (c in bm25 || c in dense) && c.id == id
                            && e == c.(rrfScore := Some(Total(bm25, dense, w, id)))
                            && (id in Ids(bm25) ==> Last(bm25, id, |bm25|) == Some(c))
                            && (id !in Ids(bm25) ==> First(dense, id, |dense|) == Some(c)))
  {
    IdsJoined(bm25, dense, id);
    if id in Ids(bm25) {
      PresentHasData(bm25, id, |bm25|);
    } else {
      AbsentAddsNothing(bm25, w, id, |bm25|);
      PresentHasData(dense, id, |dense|);
    }
  }

  /** The fused list has each id of either list exactly once, with the sum of its shares, and is
      sorted by score; equal scores stand in the order their ids were first seen. */
  lemma FusedIsUnion(bm25: seq<Chunk>, dense: seq<Chunk>, w: Weights)
    ensures var fused := Fused(bm25, dense, w);
            && Distinct(Ids(fused))
            && (forall id :: id in Ids(fused) <==> id in Ids(bm25) || id in Ids(dense))
            && forall c :: c in fused ==> c.rrfScore == Some(Total(bm25, dense, w, c.id))
  {
    var fused := Fused(bm25, dense, w);
    var keys := Totals(bm25, dense, w);
    FirstSeenDistinct(Ids(bm25) + Ids(dense), |bm25| + |dense|);
    forall p, q | 0 <= p < q < |fused|
      ensures Ids(fused)[p] != Ids(fused)[q]
    {
      var i := FusedAt(bm25, dense, w, p);
      var j := FusedAt(bm25, dense, w, q);
      OrderAhead(keys, p, q);
    }
    forall id
      ensures id in Ids(fused) <==> id in Ids(bm25) || id in Ids(dense)
    {
      IdsJoined(bm25, dense, id);
      if id in Ids(fused) {
        var p :| 0 <= p < |fused| && Ids(fused)[p] == id;
        var i := FusedAt(bm25, dense, w, p);
      }
      if id in FusedIds(bm25, dense) {
        var i :| 0 <= i < |FusedIds(bm25, dense)| && FusedIds(bm25, dense)[i] == id;
        var p := OrderHasAll(keys, |keys|, i);
        var j := FusedAt(bm25, dense, w, p);
        assert Ids(fused)[p] == id;
      }
    }
    forall c | c in fused
      ensures c.rrfScore == Some(Total(bm25, dense, w, c.id))
    {
      var p :| 0 <= p < |fused| && fused[p] == c;
      var i := FusedAt(bm25, dense, w, p);
      EntryHasId(bm25, dense, w, c.id);
    }
  }

  // ---- Order ----

  /** `a` stands before `b` in the list. */
  ghost predicate Before(list: seq<Chunk>, a: string, b: string) {
    exists p, q :: 0 <= p < q < |list| && list[p].id == a && list[q].id == b
  }

  /** Of two ids the one with the greater score stands first; of two with equal scores the one
      first seen, the lexical list before the dense one. */
  lemma FusedOrder(bm25: seq<Chunk>, dense: seq<Chunk>, w: Weights, i: nat, j: nat)
    requires i < |FusedIds(bm25, dense)| && j < |FusedIds(bm25, dense)|
    requires var a, b := FusedIds(bm25, dense)[i], FusedIds(bm25, dense)[j];
             || Total(bm25, dense, w, a) > Total(bm25, dense, w, b)
             || (Total(bm25, dense, w, a) == Total(bm25, dense, w, b) && i < j)
    ensures Before(Fused(bm25, dense, w), FusedIds(bm25, dense)[i], FusedIds(bm25, dense)[j])
  {
    var p, q := SortDescIsStable(Totals(bm25, dense, w), i, j);
    var i' := FusedAt(bm25, dense, w, p);
    var j' := FusedAt(bm25, dense, w, q);
    var fused := Fused(bm25, dense, w);
    assert fused[p].id == FusedIds(bm25, dense)[i] && fused[q].id == FusedIds(bm25, dense)[j];
  }

  lemma GreaterScoreFirst(bm25: seq<Chunk>, dense: seq<Chunk>, w: Weights, a: string, b: string)
    requires a in Ids(bm25) || a in Ids(dense)
    requires b in Ids(bm25) || b in Ids(dense)
    requires Total(bm25, dense, w, a) > Total(bm25, dense, w, b)
    ensures Before(Fused(bm25, dense, w), a, b)
  {
    IdsJoined(bm25, dense, a);
    IdsJoined(bm25, dense, b);
    var i :| 0 <= i < |FusedIds(bm25, dense)| && FusedIds(bm25, dense)[i] == a;
    var j :| 0 <= j < |FusedIds(bm25, dense)| && FusedIds(bm25, dense)[j] == b;
    FusedOrder(bm25, dense, w, i, j);
  }

  /** Places give positive shares, earlier ones more. */
  ghost predicate Decreasing(w: Weights) {
    && (forall i: nat :: w(i) > 0.0)
    && forall i: nat, j: nat :: i < j ==> w(i) > w(j)
  }

  lemma ReciprocalFalls(m: nat, n: nat)
    requires 0 < m < n
    ensures Reciprocal(m) > Reciprocal(n) > 0.0
  {
    var x, y := m as real, n as real;
    var rx, ry := Reciprocal(m), Reciprocal(n);
    assert rx * x == 1.0 && ry * y == 1.0;
    if rx <= ry {
      MulLess(rx, ry, x, y);
      assert false;
    }
  }

  lemma MulLess(a: real, b: real, x: real, y: real)
    requires 0.0 < a <= b && 0.0 < x < y
    ensures a * x < b * y
  {
    assert a * x <= b * x;
    assert b * x < b * y;
  }

  lemma RankWeightsFall(k: nat)
    ensures Decreasing(RankWeights(k))
  {
    var w := RankWeights(k);
    forall i: nat
      ensures w(i) > 0.0
    {
      ReciprocalFalls(k + i + 1, k + i + 2);
    }
    forall i: nat, j: nat | i < j
      ensures w(i) > w(j)
    {
      ReciprocalFalls(k + i + 1, k + j + 1);
    }
  }

  /** In a list of distinct ids, an id scores the share of its place. */
  lemma {:induction false} ScoreAt(list: seq<Chunk>, w: Weights, p: nat, n: nat)
    requires p < n <= |list| && Distinct(Ids(list))
    ensures Score(list, w, list[p].id, n) == w(p)
  {
    var id := list[p].id;
    assert Ids(list)[p] == id;
    if p == n - 1 {
      assert forall j :: 0 <= j < n - 1 ==> Ids(list)[j] != Ids(list)[p];
      AbsentAddsNothing(list, w, id, n - 1);
    } else {
      assert Ids(list)[n - 1] != id;
      ScoreAt(list, w, p, n - 1);
    }
  }

  lemma AbsentScore(list: seq<Chunk>, w: Weights, id: string)
    requires id !in Ids(list)
    ensures Score(list, w, id, |list|) == 0.0
  {
    AbsentAddsNothing(list, w, id, |list|);
  }

  /** Wherever `b` is in the list, `a` is before it. */
  ghost predicate AheadIn(list: seq<Chunk>, a: string, b: string) {
    forall q :: 0 <= q < |list| && list[q].id == b ==> exists p :: 0 <= p < q && list[p].id == a
  }

  lemma AheadScores(list: seq<Chunk>, w: Weights, a: string, b: string)
    requires Distinct(Ids(list)) && Decreasing(w) && AheadIn(list, a, b)
    ensures Score(list, w, a, |list|) >= Score(list, w, b, |list|)
    ensures b in Ids(list) ==> Score(list, w, a, |list|) > Score(list, w, b, |list|)
  {
    if b in Ids(list) {
      var q :| 0 <= q < |list| && Ids(list)[q] == b;
      var p :| 0 <= p < q && list[p].id == a;
      ScoreAt(list, w, p, |list|);
      ScoreAt(list, w, q, |list|);
    } else {
      AbsentScore(list, w, b);
      if a in Ids(list) {
        var p :| 0 <= p < |list| && Ids(list)[p] == a;
        ScoreAt(list, w, p, |list|);
      } else {
        AbsentScore(list, w, a);
      }
    }
  }

  /** A chunk that is ahead of another in both lists, or ahead in one while the other list has
      not got the second, stands before it in the fused list. */
  lemma Dominance(bm25: seq<Chunk>, dense: seq<Chunk>, k: nat, a: string, b: string)
    requires Distinct(Ids(bm25)) && Distinct(Ids(dense))
    requires AheadIn(bm25, a, b) && AheadIn(dense, a, b)
    requires b in Ids(bm25) || b in Ids(dense)
    ensures Before(Fused(bm25, dense, RankWeights(k)), a, b)
  {
    var w := RankWeights(k);
    RankWeightsFall(k);
    AheadScores(bm25, w, a, b);
    AheadScores(dense, w, a, b);
    if a !in Ids(bm25) && a !in Ids(dense) {
      AbsentScore(bm25, w, a);
      AbsentScore(dense, w, a);
      NonNegative(bm25, w, b, |bm25|);
      NonNegative(dense, w, b, |dense|);
      assert false;
    }
    GreaterScoreFirst(bm25, dense, w, a, b);
  }

  lemma {:induction false} NonNegative(list: seq<Chunk>, w: Weights, id: string, n: nat)
    requires n <= |list| && Decreasing(w)
    ensures Score(list, w, id, n) >= 0.0
  {
    if n > 0 {
      NonNegative(list, w, id, n - 1);
    }
  }

  lemma {:induction false} ScoreGrows(list: seq<Chunk>, more: seq<Chunk>, w: Weights, id: string, n: nat)
    requires |list| <= n <= |list| + |more| && Decreasing(w)
    ensures Score(list, w, id, |list|) <= Score(list + more, w, id, n)
    decreases n
  {
    if n == |list| {
      ScorePrefix(list, more, w, id, n);
    } else {
      ScoreGrows(list, more, w, id, n - 1);
    }
  }

  lemma {:induction false} ScorePrefix(list: seq<Chunk>, more: seq<Chunk>, w: Weights, id: string, n: nat)
    requires n <= |list|
    ensures Score(list + more, w, id, n) == Score(list, w, id, n)
  {
    if n > 0 {
      ScorePrefix(list, more, w, id, n - 1);
    }
  }

  /** A larger recall never lowers a score: extending both lists at their ends keeps each id and
      lets its score only grow. */
  lemma RecallOnlyAdds(bm25: seq<Chunk>, dense: seq<Chunk>, moreLexical: seq<Chunk>, moreDense: seq<Chunk>, k: nat,
                       id: string)
    ensures Total(bm25, dense, RankWeights(k), id) <= Total(bm25 + moreLexical, dense + moreDense, RankWeights(k), id)
    ensures id in Ids(Fused(bm25, dense, RankWeights(k)))
        ==> id in Ids(Fused(bm25 + moreLexical, dense + moreDense, RankWeights(k)))
  {
    var w := RankWeights(k);
    RankWeightsFall(k);
    ScoreGrows(bm25, moreLexical, w, id, |bm25| + |moreLexical|);
    ScoreGrows(dense, moreDense, w, id, |dense| + |moreDense|);
    FusedIsUnion(bm25, dense, w);
    FusedIsUnion(bm25 + moreLexical, dense + moreDense, w);
    IdsExtend(bm25, moreLexical, id);
    IdsExtend(dense, moreDense, id);
  }

  lemma IdsExtend(list: seq<Chunk>, more: seq<Chunk>, id: string)
    ensures id in Ids(list) ==> id in Ids(list + more)
  {
    if id in Ids(list) {
      var p :| 0 <= p < |list| && Ids(list)[p] == id;
      assert Ids(list + more)[p] == id;
    }
  }

  // ---- Both lists against one ----

  lemma HalfReciprocal(n: nat)
    requires n > 0
    ensures Reciprocal(2 * n) + Reciprocal(2 * n) == Reciprocal(n)
  {
    var x, h := n as real, Reciprocal(2 * n);
    assert (2 * n) as real == 2.0 * x;
    assert h * (2.0 * x) == 1.0;
    assert (h + h) * x == 1.0;
    assert Reciprocal(n) * x == 1.0;
    assert (h + h - Reciprocal(n)) * x == 0.0;
  }

  /** A chunk in both lists, at index `k` or before in each (rank at most `k + 1`), stands before
      every chunk that only one list has. */
  lemma BothBeatOne(bm25: seq<Chunk>, dense: seq<Chunk>, k: nat, p: nat, q: nat, b: string)
    requires Distinct(Ids(bm25)) && Distinct(Ids(dense))
    requires p < |bm25| && q < |dense| && bm25[p].id == dense[q].id && p <= k && q <= k
    requires b in Ids(bm25) <==> b !in Ids(dense)
    ensures Before(Fused(bm25, dense, RankWeights(k)), bm25[p].id, b)
  {
    var w := RankWeights(k);
    ScoreAt(bm25, w, p, |bm25|);
    ScoreAt(dense, w, q, |dense|);
    LoneScore(bm25, dense, k, b);
    HalfReciprocal(k + 1);
    ReciprocalFalls(k + p + 1, 2 * (k + 1));
    ReciprocalFalls(k + q + 1, 2 * (k + 1));
    assert Ids(bm25)[p] == bm25[p].id;
    GreaterScoreFirst(bm25, dense, w, bm25[p].id, b);
  }

  lemma LoneScore(bm25: seq<Chunk>, dense: seq<Chunk>, k: nat, b: string)
    requires Distinct(Ids(bm25)) && Distinct(Ids(dense))
    requires b in Ids(bm25) <==> b !in Ids(dense)
    ensures Total(bm25, dense, RankWeights(k), b) <= Reciprocal(k + 1)
  {
    var w := RankWeights(k);
    var list, other := if b in Ids(bm25) then bm25 else dense, if b in Ids(bm25) then dense else bm25;
    AbsentScore(other, w, b);
    var r :| 0 <= r < |list| && Ids(list)[r] == b;
    ScoreAt(list, w, r, |list|);
    if r > 0 {
      ReciprocalFalls(k + 1, k + r + 1);
    }
  }

  /** The bound is tight: at index `k + 1` in both lists a chunk only ties with the first lexical
      result, which stands before it. */
  lemma BothTieAtNextRank(bm25: seq<Chunk>, dense: seq<Chunk>, k: nat)
    requires Distinct(Ids(bm25)) && Distinct(Ids(dense))
    requires k + 1 < |bm25| && k + 1 < |dense| && bm25[k + 1].id == dense[k + 1].id
    requires bm25[0].id !in Ids(dense)
    ensures Total(bm25, dense, RankWeights(k), bm25[k + 1].id) == Total(bm25, dense, RankWeights(k), bm25[0].id)
    ensures Before(Fused(bm25, dense, RankWeights(k)), bm25[0].id, bm25[k + 1].id)
  {
    var w := RankWeights(k);
    ScoreAt(bm25, w, k + 1, |bm25|);
    ScoreAt(dense, w, k + 1, |dense|);
    ScoreAt(bm25, w, 0, |bm25|);
    AbsentScore(dense, w, bm25[0].id);
    HalfReciprocal(k + 1);
    var i := FirstIsFirst(bm25, dense, k + 1);
    FusedOrder(bm25, dense, w, 0, i);
  }

  function Named(n: nat): Chunk {
    Chunk(seq(n, i => 'x'), None, None, "", None, None)
  }

  /** Such lists exist for every `k`. */
  lemma TieExists(k: nat) returns (bm25: seq<Chunk>, dense: seq<Chunk>)
    ensures Distinct(Ids(bm25)) && Distinct(Ids(dense)) && k + 1 < |bm25| && k + 1 < |dense|
    ensures bm25[k + 1].id == dense[k + 1].id && bm25[0].id !in Ids(dense)
    ensures Before(Fused(bm25, dense, RankWeights(k)), bm25[0].id, bm25[k + 1].id)
  {
    bm25 := seq(k + 2, i requires 0 <= i < k + 2 => Named(i));
    dense := seq(k + 2, i requires 0 <= i < k + 2 => Named(if i == k + 1 then i else k + 2 + i));
    assert forall i :: 0 <= i < k + 2 ==> |Ids(bm25)[i]| == i;
    forall i | 0 <= i < k + 2
      ensures |Ids(dense)[i]| == if i == k + 1 then i else k + 2 + i
    {
      var n := if i == k + 1 then i else k + 2 + i;
      assert dense[i] == Named(n) && |Named(n).id| == n;
    }
    BothTieAtNextRank(bm25, dense, k);
  }

  lemma FirstIsFirst(bm25: seq<Chunk>, dense: seq<Chunk>, p: nat) returns (i: nat)
    requires 0 < p < |bm25| && Distinct(Ids(bm25))
    ensures 0 < i < |FusedIds(bm25, dense)|
    ensures FusedIds(bm25, dense)[0] == bm25[0].id && FusedIds(bm25, dense)[i] == bm25[p].id
  {
    var all := Ids(bm25) + Ids(dense);
    SeenFromFirst(all, |all|);
    assert all[0] == Ids(bm25)[0] && all[p] == Ids(bm25)[p];
    FirstSeenHas(all, |all|, bm25[p].id);
    assert Ids(bm25)[0] != Ids(bm25)[p];
    i :| 0 <= i < |FusedIds(bm25, dense)| && FusedIds(bm25, dense)[i] == bm25[p].id;
    assert FusedIds(bm25, dense)[0] == Ids(bm25)[0] && FusedIds(bm25, dense)[i] == Ids(bm25)[p];
  }

  lemma {:induction false} SeenFromFirst(ids: seq<string>, n: nat)
    requires 0 < n <= |ids|
    ensures |FirstSeen(ids, n)| > 0 && FirstSeen(ids, n)[0] == ids[0]
  {
    if n > 1 {
      SeenFromFirst(ids, n - 1);
    }
  }

  // ---- The cut ----

  /** `fused[:top_k]`. */
  function Cut(bm25: seq<Chunk>, dense: seq<Chunk>, k: nat, topK: nat): seq<Chunk> {
    var fused := Fused(bm25, dense, RankWeights(k));
    if topK < |fused| then fused[..topK] else fused
  }

  /** What the cut keeps scores at least what it drops, and it drops nothing it has room for. */
  lemma CutKeepsBest(bm25: seq<Chunk>, dense: seq<Chunk>, k: nat, topK: nat, a: string, b: string)
    requires a in Ids(Cut(bm25, dense, k, topK))
    requires b in Ids(bm25) || b in Ids(dense)
    requires b !in Ids(Cut(bm25, dense, k, topK))
    ensures |Cut(bm25, dense, k, topK)| == topK
    ensures Total(bm25, dense, RankWeights(k), a) >= Total(bm25, dense, RankWeights(k), b)
  {
    var w := RankWeights(k);
    var fused, cut := Fused(bm25, dense, w), Cut(bm25, dense, k, topK);
    FusedIsUnion(bm25, dense, w);
    var p :| 0 <= p < |cut| && Ids(cut)[p] == a;
    assert b in Ids(fused);
    var q :| 0 <= q < |fused| && Ids(fused)[q] == b;
    assert forall r :: 0 <= r < |cut| ==> Ids(cut)[r] == Ids(fused)[r];
    var i := FusedAt(bm25, dense, w, p);
    var j := FusedAt(bm25, dense, w, q);
    OrderAhead(Totals(bm25, dense, w), p, q);
  }
}
