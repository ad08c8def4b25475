/**
What the two searches can find of what the relay has stored. Each of the three names its own
collection: the two searches by a digest of the user id, the relay by the metadata of the chunk.
*/
module SearchedStores {
  import opened Wrappers
  import opened Strings
  import opened Retrieved
  import opened OutboxModel
  import opened OutboxSafety
  import opened Search

  /** The first 32 hex digits of a hash of the user id, whichever hash. */
  type Digest = UserId -> string

  predicate HexDigit(ch: char) {
    '0' <= ch <= '9' || 'a' <= ch <= 'f'
  }

  ghost predicate HexDigest(digest: Digest, user: UserId) {
    |digest(user)| == 32 && forall i :: 0 <= i < 32 ==> HexDigit(digest(user)[i])
  }

  /** The index that the lexical search of a user reads. */
  function LexicalIndex(r: Routing, digest: Digest, user: UserId): Collection {
    match r
    case AsCoded => Named("es_user_" + digest(user))
    case PerUser => OfUser(user)
  }

  /** The collection that the dense search of a user reads. */
  function DenseCollection(r: Routing, digest: Digest, user: UserId): Collection {
    match r
    case AsCoded => Named("user_" + digest(user))
    case PerUser => OfUser(user)
  }

  lemma NamesDiffer(digest: Digest, user: UserId, hash: string)
    requires HexDigest(digest, user)
    ensures "user_docs_" + hash != "es_user_" + digest(user)
    ensures "user_docs_" + hash != "user_" + digest(user)
  {
    assert ("user_docs_" + hash)[0] == 'u' && ("es_user_" + digest(user))[0] == 'e';
    assert ("user_docs_" + hash)[6] == 'o' && ("user_" + digest(user))[6] == digest(user)[1];
  }

  // ---- Which stored chunks a search sees ----

  lemma KeyNames(c: Config, s: State, digest: Digest, user: UserId, key: Key)
    requires Inv(c, s) && HexDigest(digest, user) && KeyJustified(c.routing, s, key)
    ensures key.coll == LexicalIndex(c.routing, digest, user)
       <==> c.routing == PerUser && s.docs[key.doc].user == user
    ensures key.coll == DenseCollection(c.routing, digest, user)
       <==> c.routing == PerUser && s.docs[key.doc].user == user
  {
    var row := s.rows[s.first[key.doc] + key.index];
    assert RowOk(s, s.first[key.doc] + key.index);
    NamesDiffer(digest, user, UserHash(row.op.metadata));
  }

  /** Exactly which chunks of a reachable state the searches of a user read: with one name per user those
      of the user's own documents, and as coded none at all, whatever the metadata. */
  lemma SearchedIff(c: Config, s: State, digest: Digest, user: UserId, key: Key)
    requires Reachable(c, s) && HexDigest(digest, user)
    ensures key in s.es ==> key.doc in s.docs
    ensures key in s.qdrant ==> key.doc in s.docs
    ensures key in s.es ==>
              (key.coll == LexicalIndex(c.routing, digest, user)
               <==> c.routing == PerUser && s.docs[key.doc].user == user)
    ensures key in s.qdrant ==>
              (key.coll == DenseCollection(c.routing, digest, user)
               <==> c.routing == PerUser && s.docs[key.doc].user == user)
  {
    ReachableInv(c, s);
    assert key in s.qdrant ==> PointJustified(c.routing, s, key, s.qdrant[key]);
    assert key in s.es ==> EsJustified(c.routing, s, key, s.es[key]);
    if key in s.qdrant || key in s.es {
      KeyNames(c, s, digest, user, key);
    }
  }

  /** Chunk `i` is where both searches of the document's owner read. */
  ghost predicate Searchable(c: Config, s: State, digest: Digest, d: DocId, i: nat)
    requires d in s.docs
  {
    var user := s.docs[d].user;
    && Key(LexicalIndex(c.routing, digest, user), d, i) in s.es
    && Key(DenseCollection(c.routing, digest, user), d, i) in s.qdrant
  }

  /** What the status `ready` is worth to a query: every chunk of a ready document can be found by its owner
      with one name per user, and none as coded. */
  lemma ReadySearchableIff(c: Config, s: State, digest: Digest, d: DocId, i: nat)
    requires Reachable(c, s) && d in s.docs && s.docs[d].status == Ready && HexDigest(digest, s.docs[d].user)
    requires i < s.docs[d].chunkCount
    ensures Searchable(c, s, digest, d, i) <==> c.routing == PerUser
  {
    var user := s.docs[d].user;
    ReadySound(c, s, d);
    assert ChunkExact(c, s, d, i);
    var key := RowKey(c.routing, s.rows[s.first[d] + i]);
    SearchedIff(c, s, digest, user, key);
    SearchedIff(c, s, digest, user, Key(LexicalIndex(c.routing, digest, user), d, i));
  }

  // ---- Replies ----

  /** The document the relay indexes for a chunk, as the search reads it back. */
  function Indexed(id: string, e: EsDoc): EsHit {
    EsHit(id, map["text" := e.text, "chunk_index" := Decimal(e.chunkIndex)])
  }

  /** The id of a chunk as text. */
  type Naming = Key -> string

  /** The relay has put the hit into the index under `key`. */
  predicate FromRelay(s: State, index: Collection, naming: Naming, hit: EsHit, key: Key) {
    key in s.es && key.coll == index && hit == Indexed(naming(key), s.es[key])
  }

  /** What a search of the index may find: what the relay has put there, and documents that other writers
      have put there, which have all fields. */
  ghost predicate Finds(s: State, index: Collection, naming: Naming, hits: seq<EsHit>) {
    forall h :: 0 <= h < |hits| ==>
      HasFields(hits[h]) || exists key :: FromRelay(s, index, naming, hits[h], key)
  }

  /** A chunk of a document of the user is among the hits, as the relay has stored it. */
  ghost predicate OwnChunkFound(s: State, user: UserId, naming: Naming, hits: seq<EsHit>) {
    exists h, key: Key :: 0 <= h < |hits| && OwnChunk(s, user, naming, hits[h], key)
  }

  predicate OwnChunk(s: State, user: UserId, naming: Naming, hit: EsHit, key: Key) {
    key in s.es && key.doc in s.docs && s.docs[key.doc].user == user && hit == Indexed(naming(key), s.es[key])
  }

  lemma IndexedLacksField(id: string, e: EsDoc)
    ensures !HasFields(Indexed(id, e))
  {
    assert "document_id" !in Indexed(id, e).source;
  }

  /** Exactly when a lexical search fails with an uncaught error in a reachable state of the outbox: iff there
      is one name per user and a stored chunk of the user is among its hits. The relay writes no
      document id, and the search reads it outside its `try`. As coded no reply does that. */
  lemma RelayedHitIff(c: Config, s: State, digest: Digest, user: UserId, naming: Naming, hits: seq<EsHit>)
    requires Reachable(c, s) && HexDigest(digest, user)
    requires Finds(s, LexicalIndex(c.routing, digest, user), naming, hits)
    ensures Bm25Found(EsHits(hits)) == Failure(UncaughtError)
       <==> c.routing == PerUser && OwnChunkFound(s, user, naming, hits)
  {
    var index := LexicalIndex(c.routing, digest, user);
    FromHitsIff(hits, |hits|);
    if h :| 0 <= h < |hits| && !HasFields(hits[h]) {
      var key :| FromRelay(s, index, naming, hits[h], key);
      SearchedIff(c, s, digest, user, key);
      assert OwnChunk(s, user, naming, hits[h], key);
    } else if OwnChunkFound(s, user, naming, hits) {
      var h, key: Key :| 0 <= h < |hits| && OwnChunk(s, user, naming, hits[h], key);
      IndexedLacksField(naming(key), s.es[key]);
      assert false;
    }
  }
}
