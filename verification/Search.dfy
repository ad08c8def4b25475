/**
What the two searches make of the replies of Elasticsearch and Qdrant.
*/
module Search {
  import opened Wrappers
  import opened Strings
  import opened Retrieved

  datatype EsHit = EsHit(id: string, source: map<string, string>)

  datatype QdrantPoint = QdrantPoint(id: string, payload: map<string, string>)

  datatype EsReply = NoIndex | EsRaises | EsHits(hits: seq<EsHit>)

  datatype QdrantReply = NoCollection | QdrantRaises | Points(points: seq<QdrantPoint>)

  function Get(m: map<string, string>, key: string): Option<string> {
    if key in m then Some(m[key]) else None
  }

  // ---- Elasticsearch ----

  predicate HasFields(hit: EsHit) {
    "text" in hit.source && "document_id" in hit.source
  }

  function FromHit(hit: EsHit): Chunk
    requires HasFields(hit)
  {
    Chunk(hit.id, Some(hit.source["document_id"]), Get(hit.source, "filename"), hit.source["text"], None, None)
  }

  /** The results of the first `n` hits. A missing field raises, outside the `try` of the search. */
  function FromHits(hits: seq<EsHit>, n: nat): Result<seq<Chunk>, Error>
    requires n <= |hits|
  {
    if n == 0 then Success([])
    else
      var before := FromHits(hits, n - 1);
      if before.Failure? then before
      else if !HasFields(hits[n - 1]) then Failure(UncaughtError)
      else Success(before.value + [FromHit(hits[n - 1])])
  }

  function Bm25Found(reply: EsReply): Result<seq<Chunk>, Error> {
    match reply
    case NoIndex => Success([])
    case EsRaises => Failure(RetrievalError)
    case EsHits(hits) => FromHits(hits, |hits|)
  }

  method Bm25Search(reply: EsReply) returns (r: Result<seq<Chunk>, Error>)
    ensures r == Bm25Found(reply)
  {
    if reply.NoIndex? {
      return Success([]);
    }
    if reply.EsRaises? {
      return Failure(RetrievalError);
    }
    var results := [];
    for i := 0 to |reply.hits|
      invariant FromHits(reply.hits, i) == Success(results)
    {
      if !HasFields(reply.hits[i]) {
        RaisesOn(reply.hits, i + 1, |reply.hits|);
        return Failure(UncaughtError);
      }
      results := results + [FromHit(reply.hits[i])];
    }
    return Success(results);
  }

  lemma {:induction false} RaisesOn(hits: seq<EsHit>, m: nat, n: nat)
    requires m <= n <= |hits| && FromHits(hits, m) == Failure(UncaughtError)
    ensures FromHits(hits, n) == Failure(UncaughtError)
  {
    if m < n {
      RaisesOn(hits, m, n - 1);
    }
  }

  lemma {:induction false} FromHitsIff(hits: seq<EsHit>, n: nat)
    requires n <= |hits|
    ensures if forall i :: 0 <= i < n ==> HasFields(hits[i])
            then FromHits(hits, n).Success? && |FromHits(hits, n).value| == n
                 && forall i :: 0 <= i < n ==> FromHits(hits, n).value[i] == FromHit(hits[i])
            else FromHits(hits, n) == Failure(UncaughtError)
  {
    if n > 0 {
      FromHitsIff(hits, n - 1);
    }
  }

  /** `c` is what stands in `fields`, under the id, and has no score yet. */
  predicate ReadsHit(c: Chunk, id: string, fields: map<string, string>) {
    && c.id == id && c.rrfScore == None && c.rerankScore == None
    && "text" in fields && c.text == fields["text"]
    && "document_id" in fields && c.documentId == Some(fields["document_id"])
    && (if "filename" in fields then c.filename == Some(fields["filename"]) else c.filename == None)
  }

  /** The lexical search succeeds exactly when there is no index, or every hit has a text and a
      document id; its results are the hits in order. It raises a retrieval error exactly when the
      call raises, and anything else only for a missing field. */
  lemma Bm25Iff(reply: EsReply)
    ensures Bm25Found(reply).Success?
       <==> reply.NoIndex? || (reply.EsHits? && forall i :: 0 <= i < |reply.hits| ==> HasFields(reply.hits[i]))
    ensures Bm25Found(reply) == Failure(RetrievalError) <==> reply.EsRaises?
    ensures reply.NoIndex? ==> Bm25Found(reply) == Success([])
    ensures reply.EsHits? && Bm25Found(reply).Success? ==>
              && |Bm25Found(reply).value| == |reply.hits|
              && forall i :: 0 <= i < |reply.hits| ==>
                   ReadsHit(Bm25Found(reply).value[i], reply.hits[i].id, reply.hits[i].source)
  {
    if reply.EsHits? {
      FromHitsIff(reply.hits, |reply.hits|);
    }
  }

  // ---- Qdrant ----

  function FromPoint(p: QdrantPoint): Chunk {
    var text := Get(p.payload, "text");
    Chunk(p.id, Get(p.payload, "document_id"), Get(p.payload, "filename"), if text.Some? then text.value else "",
          None, None)
  }

  function DenseFound(reply: QdrantReply): Result<seq<Chunk>, Error> {
    match reply
    case NoCollection => Success([])
    case QdrantRaises => Failure(RetrievalError)
    case Points(points) => Success(seq(|points|, i requires 0 <= i < |points| => FromPoint(points[i])))
  }

  method DenseSearch(reply: QdrantReply) returns (r: Result<seq<Chunk>, Error>)
    ensures r == DenseFound(reply)
  {
    if reply.NoCollection? {
      return Success([]);
    }
    if reply.QdrantRaises? {
      return Failure(RetrievalError);
    }
    var results := [];
    for i := 0 to |reply.points|
      invariant |results| == i
      invariant forall j :: 0 <= j < i ==> results[j] == FromPoint(reply.points[j])
    {
      results := results + [FromPoint(reply.points[i])];
    }
    assert results == DenseFound(reply).value;
    return Success(results);
  }

  /** `c` is what stands in the payload, under the id; a missing text is empty, other missing fields are absent. */
  predicate ReadsPoint(c: Chunk, id: string, payload: map<string, string>) {
    && c.id == id && c.rrfScore == None && c.rerankScore == None
    && c.text == (if "text" in payload then payload["text"] else "")
    && (if "document_id" in payload then c.documentId == Some(payload["document_id"]) else c.documentId == None)
    && (if "filename" in payload then c.filename == Some(payload["filename"]) else c.filename == None)
  }

  /** The dense search gives nothing without a collection, a retrieval error exactly when the call raises, and else the
      points in order, each as its payload says. */
  lemma DenseIff(reply: QdrantReply)
    ensures reply.NoCollection? ==> DenseFound(reply) == Success([])
    ensures DenseFound(reply) == Failure(RetrievalError) <==> reply.QdrantRaises?
    ensures reply.Points? ==>
              && DenseFound(reply).Success? && |DenseFound(reply).value| == |reply.points|
              && forall i :: 0 <= i < |reply.points| ==>
                   ReadsPoint(DenseFound(reply).value[i], reply.points[i].id, reply.points[i].payload)
  {
  }
}
