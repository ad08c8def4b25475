/**
The producer side of the outbox: `IngestionService`, a class over one database session. Each
operation is one transaction; committed, it is one step of the outbox step system.
*/
module Ingestion {
  import opened Wrappers
  import opened OutboxModel

  datatype Error = NotFound | CommitFailed

  class IngestionService {
    var docs: map<DocId, Doc>
    var rows: seq<Row>
    ghost var first: map<DocId, RowId>

    constructor ()
      ensures Now() == INIT
    {
      docs, rows, first := map[], [], map[];
    }

    /** Postgres as the service sees it; the external stores are none of its business. */
    ghost function Now(): State
      reads this
    {
      State(docs, rows, map[], map[], map[], first)
    }

    /** `documentId` is the fresh `uuid4`; `commits` says whether the database accepts the
        transaction. A refused one is rolled back: neither the document nor any row remains. */
    method IngestDocument(c: Config, documentId: DocId, user: UserId, docMetadata: Option<Metadata>,
                          chunks: seq<string>, commits: bool) returns (r: Result<Doc, Error>)
      requires documentId !in docs
      modifies this
      ensures r.Success? <==> commits
      ensures !commits ==> r == Failure(CommitFailed) && Now() == old(Now())
      ensures commits ==>
                var m := if docMetadata.Some? then docMetadata.value else map[];
                && Now() == Apply(c, old(Now()), Ingest(documentId, user, m, chunks))
                && r == Success(Doc(user, Processing, |chunks|))
      ensures commits ==>
                var m := if docMetadata.Some? then docMetadata.value else map[];
                && docs == old(docs)[documentId := Doc(user, Processing, |chunks|)]
                && |rows| == |old(rows)| + |chunks| && rows[..|old(rows)|] == old(rows)
                && forall i :: 0 <= i < |chunks| ==>
                     rows[|old(rows)| + i]
                     == Row(documentId, UpsertChunk(i, chunks[i], m, user), PENDING, 0)
    {
      var chunkCount := |chunks|;
      var document := Doc(user, Processing, chunkCount);
      var pending: seq<Row> := [];
      var idx := 0;
      while idx < |chunks|
        invariant 0 <= idx <= |chunks| == chunkCount
        invariant pending == FreshRows(documentId, user, if docMetadata.Some? then docMetadata.value else map[],
                                       chunks)[..idx]
      {
        var metadata := if docMetadata.Some? then docMetadata.value else map[];
        pending := pending + [Row(documentId, UpsertChunk(idx, chunks[idx], metadata, user), PENDING, 0)];
        idx := idx + 1;
      }
      if !commits {
        return Failure(CommitFailed);
      }
      first := first[documentId := |rows|];
      docs := docs[documentId := document];
      rows := rows + pending;
      return Success(document);
    }

    method DeleteDocument(c: Config, user: UserId, d: DocId) returns (r: Result<nat, Error>)
      modifies this
      ensures r == if d in old(docs) && old(docs)[d].user == user then Success(old(docs)[d].chunkCount)
                   else Failure(NotFound)
      ensures Now() == if r.Success? && old(docs)[d].status != Deleting
                       then Apply(c, old(Now()), DeleteDoc(d)) else old(Now())
      ensures r.Success? && old(docs)[d].status != Deleting ==>
                && docs == old(docs)[d := Doc(user, Deleting, r.value)]
                && rows == old(rows) + [Row(d, DeleteChunks(user), PENDING, 0)]
    {
      if d !in docs || docs[d].user != user {
        return Failure(NotFound);
      }
      var document := docs[d];
      if document.status == Deleting {
        return Success(document.chunkCount);
      }
      docs := docs[d := document.(status := Deleting)];
      rows := rows + [Row(d, DeleteChunks(user), PENDING, 0)];
      return Success(document.chunkCount);
    }
  }
}
