/** Reranking: the scores come from a model or a service, what is selected from the candidates. */
module Reranker {
  import opened Wrappers
  import opened Arithmetic
  import opened Retrieved
  import opened Ranking

  datatype Hit = Hit(index: int, relevance: real)

  /** `None`: the call raised. A Cohere backend may have no key. */
  datatype Backend =
    | Local(predict: (string, seq<string>) -> Option<seq<real>>)
    | Cohere(hasKey: bool, call: (string, seq<string>, nat) -> Option<seq<Hit>>)

  function Texts(candidates: seq<Chunk>): seq<string> {
    seq(|candidates|, i requires 0 <= i < |candidates| => candidates[i].text)
  }

  /** The zip with the scores, as long as the shorter of the two. */
  function Scored(candidates: seq<Chunk>, scores: seq<real>): (r: seq<Chunk>)
    ensures |r| == Min(|candidates|, |scores|)
  {
    seq(Min(|candidates|, |scores|), i requires 0 <= i < Min(|candidates|, |scores|) =>
      candidates[i].(rerankScore := Some(scores[i])))
  }

  function RankedLocal(candidates: seq<Chunk>, scores: seq<real>, topK: nat): seq<Chunk> {
    var n := Min(|candidates|, |scores|);
    SortDesc(Scored(candidates, scores), scores[..n])[..Min(topK, n)]
  }

  /** `candidates[index]`: a negative index counts from the end. */
  function At(candidates: seq<Chunk>, index: int): Option<Chunk> {
    if 0 <= index < |candidates| then Some(candidates[index])
    else if -|candidates| <= index < 0 then Some(candidates[|candidates| + index])
    else None
  }

  /** The first `n` hits, or a failure if one of them is out of range. */
  function RankedCohere(candidates: seq<Chunk>, hits: seq<Hit>, n: nat): Result<seq<Chunk>, Error>
    requires n <= |hits|
  {
    if n == 0 then Success([])
    else
      var before := RankedCohere(candidates, hits, n - 1);
      var c := At(candidates, hits[n - 1].index);
      if before.Failure? then before
      else if c.None? then Failure(RerankerError)
      else Success(before.value + [c.value.(rerankScore := Some(hits[n - 1].relevance))])
  }

  method RerankCohere(candidates: seq<Chunk>, hits: seq<Hit>) returns (r: Result<seq<Chunk>, Error>)
    ensures r == RankedCohere(candidates, hits, |hits|)
  {
    var reranked := [];
    for i := 0 to |hits|
      invariant RankedCohere(candidates, hits, i) == Success(reranked)
    {
      var original := At(candidates, hits[i].index);
      if original.None? {
        FailsFrom(candidates, hits, i + 1, |hits|);
        return Failure(RerankerError);
      }
      reranked := reranked + [original.value.(rerankScore := Some(hits[i].relevance))];
    }
    return Success(reranked);
  }

  lemma {:induction false} FailsFrom(candidates: seq<Chunk>, hits: seq<Hit>, m: nat, n: nat)
    requires m <= n <= |hits| && RankedCohere(candidates, hits, m) == Failure(RerankerError)
    ensures RankedCohere(candidates, hits, n) == Failure(RerankerError)
  {
    if m < n {
      FailsFrom(candidates, hits, m, n - 1);
    }
  }

  function Reranked(query: string, candidates: seq<Chunk>, topK: nat, defaultK: nat, backend: Backend)
    : Result<seq<Chunk>, Error>
  {
    var k := if topK == 0 then defaultK else topK;
    if candidates == [] then Success([])
    else
      match backend
      case Local(predict) =>
        (match predict(query, Texts(candidates))
         case None => Failure(RerankerError)
         case Some(scores) => Success(RankedLocal(candidates, scores, k)))
      case Cohere(hasKey, call) =>
        if !hasKey then Failure(RerankerError)
        else
          match call(query, Texts(candidates), Min(k, |candidates|))
          case None => Failure(RerankerError)
          case Some(hits) => RankedCohere(candidates, hits, |hits|)
  }

  method Rerank(query: string, candidates: seq<Chunk>, topK: nat, defaultK: nat, backend: Backend)
    returns (r: Result<seq<Chunk>, Error>)
    ensures r == Reranked(query, candidates, topK, defaultK, backend)
  {
    var k := if topK == 0 then defaultK else topK;
    if candidates == [] {
      return Success([]);
    }
    match backend {
      case Local(predict) =>
        var scores := predict(query, Texts(candidates));
        if scores.None? {
          return Failure(RerankerError);
        }
        r := Success(RankedLocal(candidates, scores.value, k));
      case Cohere(hasKey, call) =>
        if !hasKey {
          return Failure(RerankerError);
        }
        var hits := call(query, Texts(candidates), Min(k, |candidates|));
        if hits.None? {
          return Failure(RerankerError);
        }
        r := RerankCohere(candidates, hits.value);
    }
  }

  // ---- What is selected ----

  /** `c` is one of the candidates, rescored. */
  ghost predicate From(candidates: seq<Chunk>, c: Chunk) {
    exists i :: 0 <= i < |candidates| && c == candidates[i].(rerankScore := c.rerankScore)
  }

  /** The local backend keeps the `topK` candidates with the best scores, each once, best first,
      equal scores in candidate order: `kept` says which. */
  lemma LocalKeepsBest(candidates: seq<Chunk>, scores: seq<real>, topK: nat) returns (kept: seq<nat>)
    ensures var r := RankedLocal(candidates, scores, topK);
            var n := Min(|candidates|, |scores|);
            && |r| == |kept| == Min(topK, n)
            && (forall p :: 0 <= p < |kept| ==>
                  kept[p] < n && r[p] == candidates[kept[p]].(rerankScore := Some(scores[kept[p]])))
            && (forall p, q :: 0 <= p < q < |kept| ==> Ahead(scores[..n], kept[p], kept[q]))
            && forall p, j :: 0 <= p < |kept| && 0 <= j < n && j !in kept ==> Ahead(scores[..n], kept[p], j)
  {
    var n := Min(|candidates|, |scores|);
    var keys := scores[..n];
    var order := Order(keys, n);
    kept := order[..Min(topK, n)];
    OrderSorted(keys, n);
    forall p, j | 0 <= p < |kept| && 0 <= j < n && j !in kept
      ensures Ahead(keys, kept[p], j)
    {
      var q := OrderHasAll(keys, n, j);
      assert forall r :: 0 <= r < |kept| ==> kept[r] == order[r] && order[r] in kept;
      assert q >= |kept|;
      OrderAhead(keys, p, q);
    }
  }

  /** The Cohere backend succeeds exactly when every index is in range, and then gives the named
      candidates in the order of the hits, each with its hit's score. */
  lemma {:induction false} CohereFollowsHits(candidates: seq<Chunk>, hits: seq<Hit>, n: nat)
    requires n <= |hits|
    ensures RankedCohere(candidates, hits, n).Success?
       <==> forall i :: 0 <= i < n ==> -|candidates| <= hits[i].index < |candidates|
    ensures RankedCohere(candidates, hits, n).Success? ==>
              var r := RankedCohere(candidates, hits, n).value;
              && |r| == n
              && forall i :: 0 <= i < n ==>
                   var at := if hits[i].index < 0 then |candidates| + hits[i].index else hits[i].index;
                   0 <= at < |candidates| && r[i] == candidates[at].(rerankScore := Some(hits[i].relevance))
  {
    if n > 0 {
      CohereFollowsHits(candidates, hits, n - 1);
    }
  }

  /** `texts` are the candidates' texts, in their order. */
  predicate TextsOf(texts: seq<string>, candidates: seq<Chunk>) {
    |texts| == |candidates| && forall i :: 0 <= i < |texts| ==> texts[i] == candidates[i].text
  }

  /** With `k` the number asked for, or the default if that is 0: what the local backend was asked, and which
      candidates were selected by its answer. */
  lemma LocalReranks(query: string, candidates: seq<Chunk>, topK: nat, defaultK: nat, k: nat, backend: Backend,
                     r: seq<Chunk>)
    returns (texts: seq<string>, scores: seq<real>, kept: seq<nat>)
    requires backend.Local? && candidates != [] && k == if topK == 0 then defaultK else topK
    requires Reranked(query, candidates, topK, defaultK, backend) == Success(r)
    ensures TextsOf(texts, candidates) && backend.predict(query, texts) == Some(scores)
    ensures var n := Min(|candidates|, |scores|);
            && |r| == |kept| == Min(k, n)
            && (forall p :: 0 <= p < |kept| ==>
                  kept[p] < n && r[p] == candidates[kept[p]].(rerankScore := Some(scores[kept[p]])))
            && (forall p, q :: 0 <= p < q < |kept| ==> Ahead(scores[..n], kept[p], kept[q]))
            && forall p, j :: 0 <= p < |kept| && 0 <= j < n && j !in kept ==> Ahead(scores[..n], kept[p], j)
  {
    texts := Texts(candidates);
    scores := backend.predict(query, texts).value;
    kept := LocalKeepsBest(candidates, scores, k);
  }

  /** What the Cohere backend was asked, with a key, and which candidates its hits select. */
  lemma CohereReranks(query: string, candidates: seq<Chunk>, topK: nat, defaultK: nat, k: nat, backend: Backend,
                      r: seq<Chunk>)
    returns (texts: seq<string>, hits: seq<Hit>)
    requires backend.Cohere? && candidates != [] && k == if topK == 0 then defaultK else topK
    requires Reranked(query, candidates, topK, defaultK, backend) == Success(r)
    ensures backend.hasKey && TextsOf(texts, candidates)
    ensures backend.call(query, texts, Min(k, |candidates|)) == Some(hits) && |r| == |hits|
    ensures forall i :: 0 <= i < |hits| ==>
              var at := if hits[i].index < 0 then |candidates| + hits[i].index else hits[i].index;
              0 <= at < |candidates| && r[i] == candidates[at].(rerankScore := Some(hits[i].relevance))
  {
    texts := Texts(candidates);
    hits := backend.call(query, texts, Min(k, |candidates|)).value;
    CohereFollowsHits(candidates, hits, |hits|);
  }

  /** No candidates, no call: the result is empty. Else it fails, with a reranker error, exactly when there is no
      key, the call raises, or a hit is out of range. */
  lemma RerankFailsIff(query: string, candidates: seq<Chunk>, topK: nat, defaultK: nat, k: nat, backend: Backend)
    requires k == if topK == 0 then defaultK else topK
    ensures candidates == [] ==> Reranked(query, candidates, topK, defaultK, backend) == Success([])
    ensures var texts := seq(|candidates|, i requires 0 <= i < |candidates| => candidates[i].text);
            Reranked(query, candidates, topK, defaultK, backend) == Failure(RerankerError)
            <==> candidates != [] &&
                 match backend
                 case Local(predict) => predict(query, texts) == None
                 case Cohere(hasKey, call) =>
                   || !hasKey || call(query, texts, Min(k, |candidates|)) == None
                   || exists i :: 0 <= i < |call(query, texts, Min(k, |candidates|)).value|
                        && !(-|candidates| <= call(query, texts, Min(k, |candidates|)).value[i].index < |candidates|)
  {
    var texts := seq(|candidates|, i requires 0 <= i < |candidates| => candidates[i].text);
    assert texts == Texts(candidates);
    if candidates != [] && backend.Cohere? && backend.hasKey {
      var hits := backend.call(query, texts, Min(k, |candidates|));
      if hits.Some? {
        CohereFollowsHits(candidates, hits.value, |hits.value|);
        CohereError(candidates, hits.value, |hits.value|);
      }
    }
  }

  lemma {:induction false} CohereError(candidates: seq<Chunk>, hits: seq<Hit>, n: nat)
    requires n <= |hits|
    ensures RankedCohere(candidates, hits, n).Failure? ==> RankedCohere(candidates, hits, n).error == RerankerError
  {
    if n > 0 {
      CohereError(candidates, hits, n - 1);
    }
  }

  lemma CohereFrom(candidates: seq<Chunk>, hits: seq<Hit>, n: nat, c: Chunk)
    requires n <= |hits| && RankedCohere(candidates, hits, n).Success?
    requires c in RankedCohere(candidates, hits, n).value
    ensures From(candidates, c) && c.rerankScore.Some?
  {
    CohereFollowsHits(candidates, hits, n);
    var r := RankedCohere(candidates, hits, n).value;
    var i :| 0 <= i < |r| && r[i] == c;
    var at := if hits[i].index < 0 then |candidates| + hits[i].index else hits[i].index;
    assert c == candidates[at].(rerankScore := c.rerankScore);
  }

  /** Whatever the backend answers, each selected chunk is a candidate with a new score. */
  lemma RerankedFromCandidates(query: string, candidates: seq<Chunk>, topK: nat, defaultK: nat, backend: Backend,
                               c: Chunk)
    requires Reranked(query, candidates, topK, defaultK, backend).Success?
    requires c in Reranked(query, candidates, topK, defaultK, backend).value
    ensures From(candidates, c) && c.rerankScore.Some?
  {
    var k := if topK == 0 then defaultK else topK;
    match backend
    case Local(predict) =>
      var scores := predict(query, Texts(candidates)).value;
      var kept := LocalKeepsBest(candidates, scores, k);
      var r := RankedLocal(candidates, scores, k);
      var p :| 0 <= p < |r| && r[p] == c;
      assert c == candidates[kept[p]].(rerankScore := Some(scores[kept[p]]));
    case Cohere(_, call) =>
      var hits := call(query, Texts(candidates), Min(k, |candidates|)).value;
      CohereFrom(candidates, hits, |hits|, c);
  }

  /** Candidates with distinct ids stay distinct under the local backend. */
  lemma LocalKeepsDistinct(candidates: seq<Chunk>, scores: seq<real>, topK: nat)
    requires Distinct(Ids(candidates))
    ensures Distinct(Ids(RankedLocal(candidates, scores, topK)))
  {
    var kept := LocalKeepsBest(candidates, scores, topK);
    var r := RankedLocal(candidates, scores, topK);
    forall p, q | 0 <= p < q < |r|
      ensures Ids(r)[p] != Ids(r)[q]
    {
      assert Ahead(scores[..Min(|candidates|, |scores|)], kept[p], kept[q]);
      assert Ids(candidates)[kept[p]] != Ids(candidates)[kept[q]];
    }
  }
}
