/**
From the ingested text to the stores: where a chunk is stored, under which name and with what content, in
terms of the ingest request alone.
*/
module OutboxContent {
  import opened OutboxModel
  import opened OutboxSafety

  /** The name for a chunk with metadata `m` of user `user`. */
  function NameFor(r: Routing, m: Metadata, user: UserId): Collection {
    if r == PerUser then OfUser(user)
    else if "user_hash" in m then Named("user_docs_" + m["user_hash"])
    else Named("user_docs_default")
  }

  // ---- What an ingest queues ----

  /** Row `start + i` is chunk `i` of the document. */
  predicate QueuedAt(rows: seq<Row>, start: RowId, d: DocId, user: UserId, m: Metadata, chunks: seq<string>, i: nat) {
    && i < |chunks| && start + i < |rows|
    && rows[start + i].doc == d && rows[start + i].op == UpsertChunk(i, chunks[i], m, user)
  }

  /** A committed ingest queues one open row per chunk: chunk `i`, with its own text, the metadata and the user,
      after all rows there were. */
  lemma IngestQueues(c: Config, s: State, d: DocId, user: UserId, m: Metadata, chunks: seq<string>)
    requires d !in s.docs
    ensures var t := Apply(c, s, Ingest(d, user, m, chunks));
            && t.docs == s.docs[d := Doc(user, Processing, |chunks|)]
            && |t.rows| == |s.rows| + |chunks| && t.rows[..|s.rows|] == s.rows
            && forall i :: 0 <= i < |chunks| ==>
                 t.rows[|s.rows| + i] == Row(d, UpsertChunk(i, chunks[i], m, user), PENDING, 0)
  {
  }

  // ---- What becomes of it ----

  /** The state remembers the ingest: its rows stay where they are, as they were queued. */
  ghost predicate Ingested(s: State, d: DocId, user: UserId, m: Metadata, chunks: seq<string>) {
    && d in s.first && d in s.docs && s.docs[d].chunkCount == |chunks| && s.docs[d].user == user
    && forall i: nat :: i < |chunks| ==> QueuedAt(s.rows, s.first[d], d, user, m, chunks, i)
  }

  lemma StepIngested(c: Config, s: State, e: Event, d: DocId, user: UserId, m: Metadata, chunks: seq<string>)
    requires Enabled(c, s, e) && Ingested(s, d, user, m, chunks)
    ensures Ingested(Apply(c, s, e), d, user, m, chunks)
  {
    var t := Apply(c, s, e);
    StepExtends(c, s, e);
    forall i: nat | i < |chunks|
      ensures QueuedAt(t.rows, t.first[d], d, user, m, chunks, i)
    {
      assert QueuedAt(s.rows, s.first[d], d, user, m, chunks, i);
    }
  }

  lemma IngestIngested(c: Config, s: State, d: DocId, user: UserId, m: Metadata, chunks: seq<string>)
    requires d !in s.docs
    ensures Ingested(Apply(c, s, Ingest(d, user, m, chunks)), d, user, m, chunks)
  {
    var t := Apply(c, s, Ingest(d, user, m, chunks));
    IngestQueues(c, s, d, user, m, chunks);
    assert t.first[d] == |s.rows|;
    forall i: nat | i < |chunks|
      ensures QueuedAt(t.rows, t.first[d], d, user, m, chunks, i)
    {
      assert t.rows[|s.rows| + i] == Row(d, UpsertChunk(i, chunks[i], m, user), PENDING, 0);
    }
  }

  lemma {:induction false} RunIngested(c: Config, s: State, es: seq<Event>, t: State, d: DocId, user: UserId,
                                       m: Metadata, chunks: seq<string>)
    requires Runs(c, s, es, t) && Ingested(s, d, user, m, chunks)
    ensures Ingested(t, d, user, m, chunks)
    decreases |es|
  {
    if es != [] {
      StepIngested(c, s, es[0], d, user, m, chunks);
      RunIngested(c, Apply(c, s, es[0]), es[1..], t, d, user, m, chunks);
    }
  }

  lemma {:induction false} RunWithIngest(c: Config, s: State, es: seq<Event>, t: State, d: DocId, user: UserId,
                                         m: Metadata, chunks: seq<string>)
    requires Runs(c, s, es, t) && Ingest(d, user, m, chunks) in es
    ensures Ingested(t, d, user, m, chunks)
    decreases |es|
  {
    var u := Apply(c, s, es[0]);
    if es[0] == Ingest(d, user, m, chunks) {
      IngestIngested(c, s, d, user, m, chunks);
      RunIngested(c, u, es[1..], t, d, user, m, chunks);
    } else {
      RunWithIngest(c, u, es[1..], t, d, user, m, chunks);
    }
  }

  lemma RowIngested(c: Config, s: State, d: DocId, i: nat, user: UserId, m: Metadata, chunks: seq<string>)
    requires Ingested(s, d, user, m, chunks) && i < |chunks|
    ensures s.first[d] + i < |s.rows|
    ensures var row := s.rows[s.first[d] + i];
            && row.doc == d && row.op == UpsertChunk(i, chunks[i], m, user)
            && RowKey(c.routing, row) == Key(NameFor(c.routing, m, user), d, i)
  {
    assert QueuedAt(s.rows, s.first[d], d, user, m, chunks, i);
    NameIs(c.routing, m, user);
  }

  /** Where the text goes: after any run, whatever a store holds of an ingested document is, for some `i`, chunk `i`
      of the ingest request: its text and the request's metadata in Qdrant, its text and number in
      Elasticsearch, in both under the name that the metadata, or with one name per user the user, give. */
  lemma StoredAsIngested(c: Config, es: seq<Event>, t: State, user: UserId, m: Metadata, chunks: seq<string>, key: Key)
    requires Runs(c, INIT, es, t) && Ingest(key.doc, user, m, chunks) in es
    ensures key in t.qdrant ==>
              && key.index < |chunks| && key.coll == NameFor(c.routing, m, user)
              && t.qdrant[key] == Point(chunks[key.index], m)
    ensures key in t.es ==>
              && key.index < |chunks| && key.coll == NameFor(c.routing, m, user)
              && t.es[key] == EsDoc(chunks[key.index], key.index)
  {
    RunInv(c, INIT, es, t);
    RunWithIngest(c, INIT, es, t, key.doc, user, m, chunks);
    assert key in t.qdrant ==> PointJustified(c.routing, t, key, t.qdrant[key]);
    assert key in t.es ==> EsJustified(c.routing, t, key, t.es[key]);
    if key in t.qdrant || key in t.es {
      RowIngested(c, t, key.doc, key.index, user, m, chunks);
    }
  }

  lemma NameIs(r: Routing, m: Metadata, user: UserId)
    ensures UpsertCollection(r, m, user) == NameFor(r, m, user)
  {
    assert "user_docs_" + "default" == "user_docs_default";
  }

  /** End to end: when an ingested document is ready, both stores hold every chunk of the request, with its own
      text, and nothing else of the document. */
  lemma ReadyAsIngested(c: Config, es: seq<Event>, t: State, d: DocId, user: UserId, m: Metadata, chunks: seq<string>)
    requires Runs(c, INIT, es, t) && Ingest(d, user, m, chunks) in es
    requires d in t.docs && t.docs[d].status == Ready
    ensures forall i: nat :: i < |chunks| ==>
              var key := Key(NameFor(c.routing, m, user), d, i);
              && key in t.qdrant && t.qdrant[key] == Point(chunks[i], m)
              && key in t.es && t.es[key] == EsDoc(chunks[i], i)
    ensures forall key: Key :: key.doc == d && (key in t.qdrant || key in t.es) ==>
              key.index < |chunks| && key.coll == NameFor(c.routing, m, user)
  {
    assert Reachable(c, t);
    ReadySound(c, t, d);
    RunWithIngest(c, INIT, es, t, d, user, m, chunks);
    forall i: nat | i < |chunks|
      ensures var key := Key(NameFor(c.routing, m, user), d, i);
              && key in t.qdrant && t.qdrant[key] == Point(chunks[i], m)
              && key in t.es && t.es[key] == EsDoc(chunks[i], i)
    {
      assert ChunkExact(c, t, d, i);
      RowIngested(c, t, d, i, user, m, chunks);
    }
    forall key: Key | key.doc == d && (key in t.qdrant || key in t.es)
      ensures key.index < |chunks| && key.coll == NameFor(c.routing, m, user)
    {
      StoredAsIngested(c, es, t, user, m, chunks, key);
    }
  }

  // ---- The literal names ----

  /** As coded every stored point is in the collection that its own metadata name, the default one without a hash. */
  lemma StoredUnder(c: Config, s: State, key: Key)
    requires Reachable(c, s) && c.routing == AsCoded
    ensures key in s.qdrant ==>
              var m := s.qdrant[key].metadata;
              key.coll == if "user_hash" in m then Named("user_docs_" + m["user_hash"]) else Named("user_docs_default")
    ensures key in s.es ==>
              && IsChunkRow(s, key.doc, key.index)
              && var m := s.rows[s.first[key.doc] + key.index].op.metadata;
              key.coll == if "user_hash" in m then Named("user_docs_" + m["user_hash"]) else Named("user_docs_default")
  {
    ReachableInv(c, s);
    assert key in s.qdrant ==> PointJustified(c.routing, s, key, s.qdrant[key]);
    assert key in s.es ==> EsJustified(c.routing, s, key, s.es[key]);
    if key in s.qdrant || key in s.es {
      var op := s.rows[s.first[key.doc] + key.index].op;
      NameIs(AsCoded, op.metadata, op.user);
    }
  }

  /** The calls of a delete handler, as coded, take the document's ids out of `user_docs` and nothing else out of
      anything: the first one all of them out of Qdrant, each later one a single one out of Elasticsearch. */
  lemma DeleteCallTakes(s: State, snap: Snap, k: nat, key: Key)
    requires snap.op.DeleteChunks?
    ensures var t := DoCall(AsCoded, s, snap, k);
            var gone := key.coll == Named("user_docs") && key.doc == snap.doc;
            && (key in t.qdrant <==> key in s.qdrant && !(k == 0 && gone && key.index < ChunkCount(s, snap.doc)))
            && (key in t.es <==> key in s.es && !(k > 0 && gone && key.index + 1 == k))
            && (key in t.qdrant ==> t.qdrant[key] == s.qdrant[key])
            && (key in t.es ==> t.es[key] == s.es[key])
  {
  }
}
