/**
Reciprocal rank fusion of two ranked lists, over exact reals, and the cut to the best `top_k`.
*/
module RrfFusion {
  import opened Wrappers
  import opened Retrieved
  import opened Ranking

  const RRF_K: nat := 60

  /** What a place adds to a score, by its index. */
  type Weights = nat -> real

  function Reciprocal(n: nat): real
    requires n > 0
  {
    1.0 / n as real
  }

  /** `1 / (k + rank)`, where ranks count from 1. */
  function RankWeights(k: nat): Weights {
    (i: nat) => Reciprocal(k + i + 1)
  }

  /** What the first `n` results add to the score of `id`. */
  function Score(list: seq<Chunk>, w: Weights, id: string, n: nat): real
    requires n <= |list|
  {
    if n == 0 then 0.0
    else if list[n - 1].id == id then Score(list, w, id, n - 1) + w(n - 1)
    else Score(list, w, id, n - 1)
  }

  function Total(bm25: seq<Chunk>, dense: seq<Chunk>, w: Weights, id: string): real {
    Score(bm25, w, id, |bm25|) + Score(dense, w, id, |dense|)
  }

  /** The distinct ones among the first `n` ids, in the order they are first seen. */
  function FirstSeen(ids: seq<string>, n: nat): seq<string>
    requires n <= |ids|
  {
    if n == 0 then []
    else if ids[n - 1] in FirstSeen(ids, n - 1) then FirstSeen(ids, n - 1)
    else FirstSeen(ids, n - 1) + [ids[n - 1]]
  }

  function Last(list: seq<Chunk>, id: string, n: nat): Option<Chunk>
    requires n <= |list|
  {
    if n == 0 then None else if list[n - 1].id == id then Some(list[n - 1]) else Last(list, id, n - 1)
  }

  function First(list: seq<Chunk>, id: string, n: nat): Option<Chunk>
    requires n <= |list|
  {
    if n == 0 then None
    else if First(list, id, n - 1).Some? then First(list, id, n - 1)
    else if list[n - 1].id == id then Some(list[n - 1])
    else None
  }

  /** The last lexical result of the id, or the first dense one if there is none. */
  function Data(bm25: seq<Chunk>, dense: seq<Chunk>, id: string, n: nat): Option<Chunk>
    requires n <= |dense|
  {
    if Last(bm25, id, |bm25|).Some? then Last(bm25, id, |bm25|) else First(dense, id, n)
  }

  function FusedIds(bm25: seq<Chunk>, dense: seq<Chunk>): seq<string> {
    FirstSeen(Ids(bm25) + Ids(dense), |bm25| + |dense|)
  }

  function Totals(bm25: seq<Chunk>, dense: seq<Chunk>, w: Weights): (r: seq<real>)
    ensures |r| == |FusedIds(bm25, dense)|
  {
    var ids := FusedIds(bm25, dense);
    seq(|ids|, i requires 0 <= i < |ids| => Total(bm25, dense, w, ids[i]))
  }

  function Entry(bm25: seq<Chunk>, dense: seq<Chunk>, w: Weights, id: string): Chunk {
    match Data(bm25, dense, id, |dense|)
    case Some(c) => c.(rrfScore := Some(Total(bm25, dense, w, id)))
    case None => Chunk(id, None, None, "", Some(Total(bm25, dense, w, id)), None)
  }

  function Entries(bm25: seq<Chunk>, dense: seq<Chunk>, w: Weights): (r: seq<Chunk>)
    ensures |r| == |FusedIds(bm25, dense)|
  {
    var ids := FusedIds(bm25, dense);
    seq(|ids|, i requires 0 <= i < |ids| => Entry(bm25, dense, w, ids[i]))
  }

  function Fused(bm25: seq<Chunk>, dense: seq<Chunk>, w: Weights): seq<Chunk> {
    SortDesc(Entries(bm25, dense, w), Totals(bm25, dense, w))
  }

  // ---- Occurrences ----

  ghost predicate Occurs(ids: seq<string>, n: nat, x: string)
    requires n <= |ids|
  {
    exists j :: 0 <= j < n && ids[j] == x
  }

  lemma {:induction false} FirstSeenHas(ids: seq<string>, n: nat, x: string)
    requires n <= |ids|
    ensures x in FirstSeen(ids, n) <==> Occurs(ids, n, x)
  {
    if n > 0 {
      FirstSeenHas(ids, n - 1, x);
    }
  }

  lemma {:induction false} FirstSeenDistinct(ids: seq<string>, n: nat)
    requires n <= |ids|
    ensures Distinct(FirstSeen(ids, n))
  {
    if n > 0 {
      FirstSeenDistinct(ids, n - 1);
    }
  }

  lemma {:induction false} AbsentAddsNothing(list: seq<Chunk>, w: Weights, id: string, n: nat)
    requires n <= |list| && !Occurs(Ids(list), n, id)
    ensures Score(list, w, id, n) == 0.0 && Last(list, id, n) == None && First(list, id, n) == None
  {
    if n > 0 {
      assert Ids(list)[n - 1] != id;
      AbsentAddsNothing(list, w, id, n - 1);
    }
  }

  lemma {:induction false} PresentHasData(list: seq<Chunk>, id: string, n: nat)
    requires n <= |list| && Occurs(Ids(list), n, id)
    ensures Last(list, id, n).Some? && First(list, id, n).Some?
    ensures Last(list, id, n).value.id == id && First(list, id, n).value.id == id
    ensures Last(list, id, n).value in list && First(list, id, n).value in list
  {
    if list[n - 1].id != id || Occurs(Ids(list), n - 1, id) {
      PresentHasData(list, id, n - 1);
    } else {
      AbsentAddsNothing(list, i => 0.0, id, n - 1);
    }
  }

  // ---- The loops ----

  /** The insertion-ordered dictionaries: their keys in order, and both maps. */
  datatype Table = Table(order: seq<string>, scores: map<string, real>, data: map<string, Chunk>)

  /** `scores[cid] = scores.get(cid, 0.0) + share`. */
  function AddScore(t: Table, id: string, share: real): Table {
    if id in t.scores then t.(scores := t.scores[id := t.scores[id] + share])
    else t.(order := t.order + [id], scores := t.scores[id := share])
  }

  ghost predicate KeysAre(t: Table, order: seq<string>) {
    t.order == order && (forall id :: id in t.scores <==> id in order) && (forall id :: id in t.data <==> id in order)
  }

  predicate Row(t: Table, id: string, score: real, data: Option<Chunk>) {
    id in t.scores && id in t.data && t.scores[id] == score && Some(t.data[id]) == data
  }

  ghost predicate LexicalRows(t: Table, bm25: seq<Chunk>, w: Weights, i: nat)
    requires i <= |bm25|
  {
    && KeysAre(t, FirstSeen(Ids(bm25), i))
    && forall id :: id in t.scores ==> Row(t, id, Score(bm25, w, id, i), Last(bm25, id, i))
  }

  ghost predicate FusedRows(t: Table, bm25: seq<Chunk>, dense: seq<Chunk>, w: Weights, i: nat)
    requires i <= |dense|
  {
    && KeysAre(t, FirstSeen(Ids(bm25) + Ids(dense), |bm25| + i))
    && forall id :: id in t.scores ==>
         Row(t, id, Score(bm25, w, id, |bm25|) + Score(dense, w, id, i), Data(bm25, dense, id, i))
  }

  lemma NewKey(t: Table, ids: seq<string>, n: nat, share: real, data: map<string, Chunk>)
    requires n < |ids| && KeysAre(t, FirstSeen(ids, n))
    requires forall id :: id in data <==> id in t.data || id == ids[n]
    ensures KeysAre(AddScore(t, ids[n], share).(data := data), FirstSeen(ids, n + 1))
  {
  }

  lemma Unseen(t: Table, ids: seq<string>, n: nat, list: seq<Chunk>, from: nat, m: nat, w: Weights, id: string)
    requires n <= |ids| && KeysAre(t, FirstSeen(ids, n)) && id !in t.scores
    requires m <= |list| && from + m <= n && forall j :: 0 <= j < m ==> list[j].id == ids[from + j]
    ensures Score(list, w, id, m) == 0.0 && Last(list, id, m) == None && First(list, id, m) == None
  {
    FirstSeenHas(ids, n, id);
    forall j | 0 <= j < m
      ensures Ids(list)[j] != id
    {
      assert ids[from + j] != id;
    }
    AbsentAddsNothing(list, w, id, m);
  }

  method AddLexical(bm25: seq<Chunk>, w: Weights) returns (t: Table)
    ensures LexicalRows(t, bm25, w, |bm25|)
  {
    t := Table([], map[], map[]);
    for i := 0 to |bm25|
      invariant LexicalRows(t, bm25, w, i)
    {
      var cid := bm25[i].id;
      LexicalKeeps(t, bm25, w, i);
      t := AddScore(t, cid, w(i));
      t := t.(data := t.data[cid := bm25[i]]);
    }
  }

  lemma LexicalKeeps(t: Table, bm25: seq<Chunk>, w: Weights, i: nat)
    requires i < |bm25| && LexicalRows(t, bm25, w, i)
    ensures LexicalRows(AddScore(t, bm25[i].id, w(i)).(data := t.data[bm25[i].id := bm25[i]]), bm25, w, i + 1)
  {
    var cid := bm25[i].id;
    NewKey(t, Ids(bm25), i, w(i), t.data[cid := bm25[i]]);
    if cid !in t.scores {
      Unseen(t, Ids(bm25), i, bm25, 0, i, w, cid);
    }
    LexicalStep(t, bm25, w, i);
  }

  lemma LexicalStep(t: Table, bm25: seq<Chunk>, w: Weights, i: nat)
    requires i < |bm25| && LexicalRows(t, bm25, w, i)
    requires bm25[i].id !in t.scores ==> Score(bm25, w, bm25[i].id, i) == 0.0
    ensures var t' := AddScore(t, bm25[i].id, w(i)).(data := t.data[bm25[i].id := bm25[i]]);
            forall id :: id in t'.scores ==> Row(t', id, Score(bm25, w, id, i + 1), Last(bm25, id, i + 1))
  {
    var t' := AddScore(t, bm25[i].id, w(i)).(data := t.data[bm25[i].id := bm25[i]]);
    forall id | id in t'.scores
      ensures Row(t', id, Score(bm25, w, id, i + 1), Last(bm25, id, i + 1))
    {
      if id in t.scores {
        assert Row(t, id, Score(bm25, w, id, i), Last(bm25, id, i));
      }
    }
  }

  lemma LexicalRowsFuse(t: Table, bm25: seq<Chunk>, dense: seq<Chunk>, w: Weights)
    requires LexicalRows(t, bm25, w, |bm25|)
    ensures FusedRows(t, bm25, dense, w, 0)
  {
    FirstSeenPrefix(Ids(bm25), Ids(dense), |bm25|);
    forall id | id in t.scores
      ensures Row(t, id, Score(bm25, w, id, |bm25|) + Score(dense, w, id, 0), Data(bm25, dense, id, 0))
    {
      assert Row(t, id, Score(bm25, w, id, |bm25|), Last(bm25, id, |bm25|));
    }
  }

  method AddDense(start: Table, bm25: seq<Chunk>, dense: seq<Chunk>, w: Weights) returns (t: Table)
    requires LexicalRows(start, bm25, w, |bm25|)
    ensures FusedRows(t, bm25, dense, w, |dense|)
  {
    t := start;
    LexicalRowsFuse(t, bm25, dense, w);
    for i := 0 to |dense|
      invariant FusedRows(t, bm25, dense, w, i)
    {
      var cid := dense[i].id;
      var data := if cid in t.data then t.data else t.data[cid := dense[i]];
      DenseStep(t, bm25, dense, w, i, data);
      t := AddScore(t, cid, w(i));
      t := t.(data := data);
    }
  }

  lemma DenseUnseen(t: Table, bm25: seq<Chunk>, dense: seq<Chunk>, w: Weights, i: nat, id: string)
    requires i < |dense| && KeysAre(t, FirstSeen(Ids(bm25) + Ids(dense), |bm25| + i)) && id !in t.scores
    ensures Score(bm25, w, id, |bm25|) == 0.0 && Score(dense, w, id, i) == 0.0
    ensures Data(bm25, dense, id, i) == None
  {
    UnseenIn(t, bm25, dense, Ids(bm25) + Ids(dense), |bm25| + i, w, i, id);
  }

  lemma UnseenIn(t: Table, bm25: seq<Chunk>, dense: seq<Chunk>, all: seq<string>, n: nat, w: Weights, i: nat,
                 id: string)
    requires i < |dense| && all == Ids(bm25) + Ids(dense) && n == |bm25| + i
    requires KeysAre(t, FirstSeen(all, n)) && id !in t.scores
    ensures Score(bm25, w, id, |bm25|) == 0.0 && Score(dense, w, id, i) == 0.0
    ensures Data(bm25, dense, id, i) == None
  {
    Unseen(t, all, n, bm25, 0, |bm25|, w, id);
    Unseen(t, all, n, dense, |bm25|, i, w, id);
  }

  lemma DenseKnown(t: Table, bm25: seq<Chunk>, dense: seq<Chunk>, w: Weights, i: nat, id: string)
    requires i < |dense| && FusedRows(t, bm25, dense, w, i) && id in t.scores
    ensures Row(t, id, Score(bm25, w, id, |bm25|) + Score(dense, w, id, i), Data(bm25, dense, id, i))
  {
  }

  lemma DenseNext(bm25: seq<Chunk>, dense: seq<Chunk>, w: Weights, i: nat, id: string)
    requires i < |dense|
    ensures Score(dense, w, id, i + 1)
         == if dense[i].id == id then Score(dense, w, id, i) + w(i) else Score(dense, w, id, i)
    ensures Data(bm25, dense, id, i + 1)
         == if Data(bm25, dense, id, i) == None && dense[i].id == id then Some(dense[i]) else Data(bm25, dense, id, i)
  {
  }

  lemma RowStep(t: Table, cid: string, c: Chunk, share: real, id: string, score: real, before: Option<Chunk>,
                data: map<string, Chunk>)
    requires data == if cid in t.data then t.data else t.data[cid := c]
    requires (cid in t.data) == (cid in t.scores)
    requires if id in t.scores then Row(t, id, score, before) else id == cid && score == 0.0 && before == None
    ensures Row(AddScore(t, cid, share).(data := data), id, if id == cid then score + share else score,
                if before == None && id == cid then Some(c) else before)
  {
  }

  lemma DenseStep(t: Table, bm25: seq<Chunk>, dense: seq<Chunk>, w: Weights, i: nat, data: map<string, Chunk>)
    requires i < |dense| && FusedRows(t, bm25, dense, w, i)
    requires data == if dense[i].id in t.data then t.data else t.data[dense[i].id := dense[i]]
    ensures FusedRows(AddScore(t, dense[i].id, w(i)).(data := data), bm25, dense, w, i + 1)
  {
    var cid := dense[i].id;
    var all := Ids(bm25) + Ids(dense);
    assert all[|bm25| + i] == cid;
    NewKey(t, all, |bm25| + i, w(i), data);
    var t' := AddScore(t, cid, w(i)).(data := data);
    forall id | id in t'.scores
      ensures Row(t', id, Score(bm25, w, id, |bm25|) + Score(dense, w, id, i + 1), Data(bm25, dense, id, i + 1))
    {
      DenseNext(bm25, dense, w, i, id);
      if id in t.scores {
        DenseKnown(t, bm25, dense, w, i, id);
      } else {
        DenseUnseen(t, bm25, dense, w, i, id);
      }
      RowStep(t, cid, dense[i], w(i), id, Score(bm25, w, id, |bm25|) + Score(dense, w, id, i),
              Data(bm25, dense, id, i), data);
    }
  }

  lemma {:induction false} FirstSeenPrefix(a: seq<string>, b: seq<string>, n: nat)
    requires n <= |a|
    ensures FirstSeen(a + b, n) == FirstSeen(a, n)
  {
    if n > 0 {
      FirstSeenPrefix(a, b, n - 1);
    }
  }

  lemma RowIsEntry(t: Table, bm25: seq<Chunk>, dense: seq<Chunk>, w: Weights, i: nat)
    requires FusedRows(t, bm25, dense, w, |dense|) && i < |t.order|
    ensures t.order == FusedIds(bm25, dense)
    ensures t.order[i] in t.scores && t.order[i] in t.data
    ensures t.scores[t.order[i]] == Totals(bm25, dense, w)[i]
    ensures t.data[t.order[i]].(rrfScore := Some(t.scores[t.order[i]])) == Entries(bm25, dense, w)[i]
  {
    var id := t.order[i];
    assert Row(t, id, Total(bm25, dense, w, id), Data(bm25, dense, id, |dense|));
  }

  method RrfFuse(bm25: seq<Chunk>, dense: seq<Chunk>, k: nat := RRF_K) returns (fused: seq<Chunk>)
    ensures fused == Fused(bm25, dense, RankWeights(k))
  {
    var w := RankWeights(k);
    var t := AddLexical(bm25, w);
    t := AddDense(t, bm25, dense, w);
    fused := [];
    var scores := [];
    ghost var entries, totals := Entries(bm25, dense, w), Totals(bm25, dense, w);
    assert t.order == FusedIds(bm25, dense);
    for i := 0 to |t.order|
      invariant |fused| == |scores| == i
      invariant forall j :: 0 <= j < i ==> fused[j] == entries[j] && scores[j] == totals[j]
    {
      RowIsEntry(t, bm25, dense, w, i);
      var cid := t.order[i];
      fused := fused + [t.data[cid].(rrfScore := Some(t.scores[cid]))];
      scores := scores + [t.scores[cid]];
    }
    assert fused == entries && scores == totals;
    fused := SortDesc(fused, scores);
  }
}
