/**
Deletion. The delete handler recomputes the ids of the document's chunks and removes them from
both stores. Whether the chunks stay gone depends on what is left to be relayed when it runs.
*/
module OutboxDelete {
  import opened OutboxModel
  import opened OutboxSafety
  import opened OutboxFinal

  // ---- The ids ----

  /** The ids queued by an ingest. */
  function QueuedKeys(r: Routing, rows: seq<Row>, d: DocId): set<Key> {
    set id | 0 <= id < |rows| && rows[id].doc == d && rows[id].op.UpsertChunk? :: RowKey(r, rows[id])
  }

  function Indices(keys: set<Key>): set<nat> {
    set key | key in keys :: key.index
  }

  /** The ids the delete handler recomputes from the chunk count are exactly the ids the ingest
      queued, index by index; the handlers agree on where to find them exactly when there is one
      collection per user, or no chunk at all. */
  lemma DeleteKeysAreIngestKeys(c: Config, s: State, d: DocId)
    requires Reachable(c, s) && d in s.docs
    ensures var made := DocKeys(DeleteCollection(c.routing, s.docs[d].user), d, s.docs[d].chunkCount);
            var queued := QueuedKeys(c.routing, s.rows, d);
            && Indices(made) == Indices(queued)
            && (made == queued <==> c.routing == PerUser || s.docs[d].chunkCount == 0)
  {
    ReachableInv(c, s);
    MadeIndices(DeleteCollection(c.routing, s.docs[d].user), d, s.docs[d].chunkCount);
    QueuedIndices(c, s, d);
    if c.routing == PerUser {
      PerUserKeys(c, s, d);
    } else if s.docs[d].chunkCount > 0 {
      AsCodedKeys(c, s, d);
    } else {
      NoIndices(DocKeys(DeleteCollection(c.routing, s.docs[d].user), d, 0));
      NoIndices(QueuedKeys(c.routing, s.rows, d));
    }
  }

  lemma NoIndices(keys: set<Key>)
    requires forall i: nat :: i !in Indices(keys)
    ensures keys == {}
  {
    assert forall key :: key in keys ==> key.index in Indices(keys);
  }

  lemma MadeIndices(coll: Collection, d: DocId, n: nat)
    ensures forall i: nat :: i in Indices(DocKeys(coll, d, n)) <==> i < n
  {
    forall i: nat | i < n
      ensures i in Indices(DocKeys(coll, d, n))
    {
      assert Key(coll, d, i) in DocKeys(coll, d, n);
    }
  }

  lemma ChunkQueued(c: Config, s: State, d: DocId, i: nat)
    requires Inv(c, s) && d in s.docs && i < s.docs[d].chunkCount
    ensures IsChunkRow(s, d, i) && RowKey(c.routing, s.rows[s.first[d] + i]) in QueuedKeys(c.routing, s.rows, d)
  {
    assert IsChunkRow(s, d, i);
  }

  lemma QueuedFrom(c: Config, s: State, d: DocId, key: Key) returns (id: RowId)
    requires Inv(c, s) && key in QueuedKeys(c.routing, s.rows, d)
    ensures id < |s.rows| && s.rows[id].op.UpsertChunk? && key == RowKey(c.routing, s.rows[id]) && s.rows[id].doc == d
    ensures d in s.docs && key.index < s.docs[d].chunkCount && s.rows[id].op.user == s.docs[d].user
  {
    id :| 0 <= id < |s.rows| && s.rows[id].doc == d && s.rows[id].op.UpsertChunk?
        && RowKey(c.routing, s.rows[id]) == key;
    assert RowOk(s, id);
  }

  lemma QueuedIndices(c: Config, s: State, d: DocId)
    requires Inv(c, s) && d in s.docs
    ensures forall i: nat :: i in Indices(QueuedKeys(c.routing, s.rows, d)) <==> i < s.docs[d].chunkCount
  {
    forall i: nat | i < s.docs[d].chunkCount
      ensures i in Indices(QueuedKeys(c.routing, s.rows, d))
    {
      ChunkQueued(c, s, d, i);
    }
    forall key | key in QueuedKeys(c.routing, s.rows, d)
      ensures key.index < s.docs[d].chunkCount
    {
      var id := QueuedFrom(c, s, d, key);
    }
  }

  lemma PerUserKeys(c: Config, s: State, d: DocId)
    requires Inv(c, s) && c.routing == PerUser && d in s.docs
    ensures DocKeys(OfUser(s.docs[d].user), d, s.docs[d].chunkCount) == QueuedKeys(PerUser, s.rows, d)
  {
    var made, queued := DocKeys(OfUser(s.docs[d].user), d, s.docs[d].chunkCount), QueuedKeys(PerUser, s.rows, d);
    forall key | key in made
      ensures key in queued
    {
      ChunkQueued(c, s, d, key.index);
      assert RowOk(s, s.first[d] + key.index);
    }
    forall key | key in queued
      ensures key in made
    {
      var id := QueuedFrom(c, s, d, key);
    }
  }

  lemma AsCodedKeys(c: Config, s: State, d: DocId)
    requires Inv(c, s) && c.routing == AsCoded && d in s.docs && s.docs[d].chunkCount > 0
    ensures DocKeys(DeleteCollection(AsCoded, s.docs[d].user), d, s.docs[d].chunkCount)
         != QueuedKeys(AsCoded, s.rows, d)
  {
    ChunkQueued(c, s, d, 0);
    var op := s.rows[s.first[d]].op;
    NamesDiffer(op.metadata, op.user, s.docs[d].user);
  }

  // ---- When deletion is final ----

  /** The worker has made the calls of its current row and cannot put it back: it can write nothing
      any more. */
  predicate Spent(wk: Worker, j: nat)
    requires j < |wk.batch|
  {
    j == wk.cursor && wk.batch[j].retry + 1 == MAX_RETRIES && (wk.phase.Calling? ==> wk.phase.calls >= 2)
  }

  /** An upsert of `d` is at or ahead of the worker's cursor, and may still write. */
  predicate InFlight(wk: Worker, d: DocId) {
    exists j :: wk.cursor <= j < |wk.batch| && wk.batch[j].doc == d && wk.batch[j].op.UpsertChunk? && !Spent(wk, j)
  }

  predicate OpenUpsert(s: State, d: DocId, r: RowId) {
    r < |s.rows| && s.rows[r].doc == d && s.rows[r].op.UpsertChunk? && s.rows[r].status == PENDING
  }

  /** No upsert row of `d` is open, and no worker may still write one. */
  ghost predicate Quiet(s: State, d: DocId) {
    && d in s.docs
    && (forall r :: 0 <= r < |s.rows| ==> !OpenUpsert(s, d, r))
    && (forall w :: w in s.workers ==> !InFlight(s.workers[w], d))
  }

  ghost predicate QdrantClear(s: State, d: DocId) {
    forall key :: key in s.qdrant ==> key.doc != d
  }

  ghost predicate EsClear(s: State, d: DocId, n: nat) {
    forall key :: key in s.es && key.doc == d ==> key.index >= n
  }

  ghost predicate Clear(s: State, d: DocId) {
    QdrantClear(s, d) && EsClear(s, d, ChunkCount(s, d))
  }

  predicate OnDelete(wk: Worker, d: DocId, r: RowId) {
    wk.HasRow() && wk.Current().id == r && wk.Current().doc == d && wk.Current().op.DeleteChunks?
  }

  /** What the calls of a delete handler have removed so far. */
  ghost predicate Removed(s: State, wk: Worker, d: DocId, r: RowId) {
    OnDelete(wk, d, r) ==>
      match wk.phase
      case Calling(k) => (k >= 1 ==> QdrantClear(s, d) && EsClear(s, d, k - 1))
      case AtCount => Clear(s, d)
      case AtMark => Clear(s, d)
      case Failing => true
  }

  predicate DeleteDone(s: State, d: DocId, r: RowId) {
    r < |s.rows| && s.rows[r].doc == d && s.rows[r].op.DeleteChunks? && s.rows[r].status == PUBLISHED
  }

  /** Holds from the moment no upsert is left, and before row `r` was handled. */
  ghost predicate CleanDelete(s: State, d: DocId, r: RowId) {
    && Quiet(s, d)
    && (forall w :: w in s.workers ==> Removed(s, s.workers[w], d, r))
    && (DeleteDone(s, d, r) ==> Clear(s, d))
  }

  lemma StepNoneOpen(c: Config, s: State, e: Event, d: DocId, r: RowId)
    requires Inv(c, s) && Quiet(s, d) && Enabled(c, s, e) && r < |s.rows|
    ensures !OpenUpsert(Apply(c, s, e), d, r)
  {
    assert !OpenUpsert(s, d, r);
    if e.FailCommit? {
      var wk := s.workers[e.w];
      assert WorkerOk(s, wk) && SnapOk(s, wk.Current()) && !InFlight(wk, d);
    }
  }

  lemma StepNoneInFlight(c: Config, s: State, e: Event, d: DocId, w: WorkerId)
    requires Quiet(s, d) && Enabled(c, s, e) && w in Apply(c, s, e).workers
    ensures !InFlight(Apply(c, s, e).workers[w], d)
  {
    if w in s.workers {
      assert !InFlight(s.workers[w], d);
    } else {
      assert forall j :: 0 <= j < |e.ids| ==> !OpenUpsert(s, d, e.ids[j]);
    }
  }

  lemma StepQuiet(c: Config, s: State, e: Event, d: DocId)
    requires Inv(c, s) && Quiet(s, d) && Enabled(c, s, e)
    ensures Quiet(Apply(c, s, e), d)
  {
    var t := Apply(c, s, e);
    StepExtends(c, s, e);
    forall r | 0 <= r < |t.rows|
      ensures !OpenUpsert(t, d, r)
    {
      if r < |s.rows| {
        StepNoneOpen(c, s, e, d, r);
      }
    }
    forall w | w in t.workers
      ensures !InFlight(t.workers[w], d)
    {
      StepNoneInFlight(c, s, e, d, w);
    }
  }

  /** While `d` is quiet, nothing of it enters a store. */
  lemma StepNoWrite(c: Config, s: State, e: Event, d: DocId, key: Key)
    requires Inv(c, s) && Quiet(s, d) && Enabled(c, s, e) && key.doc == d
    ensures key in Apply(c, s, e).qdrant ==> key in s.qdrant
    ensures key in Apply(c, s, e).es ==> key in s.es
  {
    if e.Call? {
      assert !InFlight(s.workers[e.w], d);
    }
  }

  lemma StepKeepsClear(c: Config, s: State, e: Event, d: DocId, n: nat)
    requires Inv(c, s) && Quiet(s, d) && Enabled(c, s, e)
    ensures QdrantClear(s, d) ==> QdrantClear(Apply(c, s, e), d)
    ensures EsClear(s, d, n) ==> EsClear(Apply(c, s, e), d, n)
  {
    var t := Apply(c, s, e);
    forall key: Key | key.doc == d
      ensures key in t.qdrant ==> key in s.qdrant
      ensures key in t.es ==> key in s.es
    {
      StepNoWrite(c, s, e, d, key);
    }
  }

  /** Where the chunks of `d` are, with one collection per user. */
  lemma StoredKey(c: Config, s: State, key: Key)
    requires c.routing == PerUser && Inv(c, s) && (key in s.qdrant || key in s.es)
    ensures key.doc in s.docs && key.index < ChunkCount(s, key.doc)
    ensures key == Key(OfUser(s.docs[key.doc].user), key.doc, key.index)
  {
    assert key in s.qdrant ==> PointJustified(PerUser, s, key, s.qdrant[key]);
    assert key in s.es ==> EsJustified(PerUser, s, key, s.es[key]);
    assert KeyJustified(PerUser, s, key) && RowOk(s, s.first[key.doc] + key.index);
  }

  lemma BulkDelete(c: Config, s: State, snap: Snap)
    requires c.routing == PerUser && Inv(c, s) && SnapOk(s, snap) && snap.op.DeleteChunks?
    ensures QdrantClear(DoCall(PerUser, s, snap, 0), snap.doc)
  {
    assert RowOk(s, snap.id);
    forall key | key in DoCall(PerUser, s, snap, 0).qdrant
      ensures key.doc != snap.doc
    {
      StoredKey(c, s, key);
    }
  }

  lemma OneDelete(c: Config, s: State, snap: Snap, k: nat)
    requires c.routing == PerUser && Inv(c, s) && SnapOk(s, snap) && snap.op.DeleteChunks?
    requires k >= 1 && EsClear(s, snap.doc, k - 1)
    ensures EsClear(DoCall(PerUser, s, snap, k), snap.doc, k)
  {
    assert RowOk(s, snap.id);
    forall key | key in DoCall(PerUser, s, snap, k).es && key.doc == snap.doc
      ensures key.index >= k
    {
      StoredKey(c, s, key);
    }
  }

  /** A call of the delete handler, with one collection per user. */
  lemma DeleteCall(c: Config, s: State, w: WorkerId, d: DocId, r: RowId)
    requires c.routing == PerUser && Inv(c, s) && Enabled(c, s, Call(w))
    requires OnDelete(s.workers[w], d, r) && Removed(s, s.workers[w], d, r)
    ensures Removed(Apply(c, s, Call(w)), Apply(c, s, Call(w)).workers[w], d, r)
  {
    var wk := s.workers[w];
    assert WorkerOk(s, wk) && SnapOk(s, wk.Current());
    var k := wk.phase.calls;
    if k == 0 {
      BulkDelete(c, s, wk.Current());
    } else {
      OneDelete(c, s, wk.Current(), k);
    }
  }

  /** A worker on a delete row whose own step is no call, or that does not move. */
  lemma StillRemoved(s: State, t: State, wk: Worker, wk': Worker, d: DocId, r: RowId)
    requires OnDelete(wk, d, r) && Removed(s, wk, d, r)
    requires wk'.batch == wk.batch && (wk'.cursor != wk.cursor ==> wk'.phase == Calling(0))
    requires QdrantClear(s, d) ==> QdrantClear(t, d)
    requires forall n :: EsClear(s, d, n) ==> EsClear(t, d, n)
    requires d in s.docs && ChunkCount(t, d) == ChunkCount(s, d)
    requires wk'.cursor == wk.cursor ==>
               wk'.phase == wk.phase || wk'.phase == Failing
               || (wk'.phase == AtCount && wk.phase == Calling(1 + ChunkCount(s, d)))
               || (wk'.phase == AtMark && wk.phase == AtCount)
    ensures Removed(t, wk', d, r)
  {
  }

  lemma StepRemovedOnDelete(c: Config, s: State, e: Event, d: DocId, r: RowId, w: WorkerId)
    requires c.routing == PerUser && Inv(c, s) && Quiet(s, d) && Enabled(c, s, e)
    requires w in s.workers && OnDelete(s.workers[w], d, r) && Removed(s, s.workers[w], d, r)
    requires w in Apply(c, s, e).workers
    ensures Removed(Apply(c, s, e), Apply(c, s, e).workers[w], d, r)
  {
    var wk := s.workers[w];
    var t := Apply(c, s, e);
    if e == Call(w) {
      DeleteCall(c, s, w, d, r);
    } else {
      StepExtends(c, s, e);
      forall n: nat
        ensures QdrantClear(s, d) ==> QdrantClear(t, d)
        ensures EsClear(s, d, n) ==> EsClear(t, d, n)
      {
        StepKeepsClear(c, s, e, d, n);
      }
      assert WorkerOk(s, wk) && SnapOk(s, wk.Current());
      StepKeepsClear(c, s, e, d, 0);
      StillRemoved(s, t, wk, t.workers[w], d, r);
    }
  }

  lemma StepRemoved(c: Config, s: State, e: Event, d: DocId, r: RowId, w: WorkerId)
    requires c.routing == PerUser && Inv(c, s) && CleanDelete(s, d, r) && Enabled(c, s, e)
    requires w in Apply(c, s, e).workers
    ensures Removed(Apply(c, s, e), Apply(c, s, e).workers[w], d, r)
  {
    if w in s.workers && OnDelete(s.workers[w], d, r) {
      StepRemovedOnDelete(c, s, e, d, r, w);
    } else {
      assert Apply(c, s, e).workers[w].phase == Calling(0) || !OnDelete(Apply(c, s, e).workers[w], d, r);
    }
  }

  lemma StepCleanDelete(c: Config, s: State, e: Event, d: DocId, r: RowId)
    requires c.routing == PerUser && Inv(c, s) && CleanDelete(s, d, r) && Enabled(c, s, e)
    ensures CleanDelete(Apply(c, s, e), d, r)
  {
    var t := Apply(c, s, e);
    StepQuiet(c, s, e, d);
    StepExtends(c, s, e);
    StepKeepsClear(c, s, e, d, ChunkCount(s, d));
    forall w | w in t.workers
      ensures Removed(t, t.workers[w], d, r)
    {
      StepRemoved(c, s, e, d, r, w);
    }
    if DeleteDone(t, d, r) && !DeleteDone(s, d, r) {
      var wk := s.workers[e.w];
      assert e.Publish? && WorkerOk(s, wk) && SnapOk(s, wk.Current());
      assert OnDelete(wk, d, r) && Removed(s, wk, d, r);
    }
  }

  lemma {:induction false} RunCleanDelete(c: Config, s: State, es: seq<Event>, t: State, d: DocId, r: RowId)
    requires c.routing == PerUser && Inv(c, s) && CleanDelete(s, d, r) && Runs(c, s, es, t)
    ensures CleanDelete(t, d, r)
    decreases |es|
  {
    if es != [] {
      StepCleanDelete(c, s, es[0], d, r);
      StepInv(c, s, es[0]);
      RunCleanDelete(c, Apply(c, s, es[0]), es[1..], t, d, r);
    }
  }

  /** Neither store holds anything of `d`. */
  ghost predicate Empty(s: State, d: DocId) {
    forall key: Key :: key.doc == d ==> key !in s.qdrant && key !in s.es
  }

  /** Row `r` is not published yet, and no worker is in the middle of its delete calls. */
  ghost predicate DeleteUntouched(s: State, d: DocId, r: RowId) {
    && !DeleteDone(s, d, r)
    && (forall w :: w in s.workers && OnDelete(s.workers[w], d, r) ==>
          s.workers[w].phase == Calling(0) || s.workers[w].phase == Failing)
  }

  /** Delete empties: if no upsert row of the document is open or in flight when its deletion
      starts to be handled, by its first delete row or by a later one, then once that row is published
      no store holds a chunk of it, in that state and in every later one, exactly when there is one
      collection per user, or no store held a chunk of it to begin with. */
  lemma DeleteEmptiesIff(c: Config, s: State, es: seq<Event>, t: State, d: DocId, r: RowId)
    requires Reachable(c, s) && Quiet(s, d) && DeleteUntouched(s, d, r)
    requires Runs(c, s, es, t) && DeleteDone(t, d, r)
    ensures Empty(t, d) <==> c.routing == PerUser || Empty(s, d)
  {
    ReachableInv(c, s);
    if c.routing == PerUser {
      DeleteEmpties(c, s, es, t, d, r);
    } else if Empty(s, d) {
      RunKeepsClear(c, s, es, t, d);
    } else {
      var key: Key :| key.doc == d && (key in s.qdrant || key in s.es);
      AsCodedKeeps(c, s, es, t, key);
    }
  }

  lemma DeleteEmpties(c: Config, s: State, es: seq<Event>, t: State, d: DocId, r: RowId)
    requires c.routing == PerUser && Inv(c, s)
    requires Quiet(s, d) && DeleteUntouched(s, d, r)
    requires Runs(c, s, es, t) && DeleteDone(t, d, r)
    ensures Empty(t, d)
  {
    RunCleanDelete(c, s, es, t, d, r);
    RunInv(c, s, es, t);
    assert Clear(t, d);
    forall key | key in t.es
      ensures key.doc != d
    {
      assert EsJustified(c.routing, t, key, t.es[key]);
    }
  }

  // ---- The premise is needed ----

  lemma Resurrect(c: Config, s: State, d: DocId, r: RowId) returns (t: State)
    requires Inv(c, s) && OpenUpsert(s, d, r) && s.workers == map[]
    ensures Leads(c, s, t)
    ensures RowKey(c.routing, s.rows[r]) in t.qdrant && RowKey(c.routing, s.rows[r]) in t.es
  {
    assert Enabled(c, s, Claim(0, [r]));
    var s1 := Apply(c, s, Claim(0, [r]));
    assert s1.workers[0] == Worker([Snap(r, s.rows[r].doc, s.rows[r].op, s.rows[r].retry)], 0, Calling(0), {r});
    var s2 := Apply(c, s1, Call(0));
    t := Apply(c, s2, Call(0));
    LeadsOne(c, s, Claim(0, [r]));
    LeadsOne(c, s1, Call(0));
    LeadsTrans(c, s, s1, s2);
    LeadsOne(c, s2, Call(0));
    LeadsTrans(c, s, s2, t);
  }

  ghost predicate EmptyForever(c: Config, s: State, d: DocId) {
    forall t :: Leads(c, s, t) ==> Empty(t, d)
  }

  lemma {:induction false} RunKeepsClear(c: Config, s: State, es: seq<Event>, t: State, d: DocId)
    requires Inv(c, s) && Quiet(s, d) && Runs(c, s, es, t) && Empty(s, d)
    ensures Empty(t, d)
    decreases |es|
  {
    if es != [] {
      forall key: Key | key.doc == d
        ensures key !in Apply(c, s, es[0]).qdrant && key !in Apply(c, s, es[0]).es
      {
        StepNoWrite(c, s, es[0], d, key);
      }
      StepQuiet(c, s, es[0], d);
      StepInv(c, s, es[0]);
      RunKeepsClear(c, Apply(c, s, es[0]), es[1..], t, d);
    }
  }

  ghost predicate CanWrite(c: Config, s: State, d: DocId) {
    exists t :: CanLead(c, s, t, true) && !Empty(t, d)
  }

  lemma WriteLater(c: Config, s: State, t: State, d: DocId)
    requires CanLead(c, s, t, true) && CanWrite(c, t, d)
    ensures CanWrite(c, s, d)
  {
    var u :| CanLead(c, t, u, true) && !Empty(u, d);
    CanLeadTrans(c, s, t, u, true);
  }

  lemma OpenWrites(c: Config, s: State, d: DocId, r: RowId)
    requires Inv(c, s) && OpenUpsert(s, d, r)
    ensures CanWrite(c, s, d)
  {
    var u := Among(s, {});
    CrashRest(c, s, {}, true);
    CanLeadInv(c, s, u, true);
    assert u.workers == map[];
    var t := Resurrect(c, u, d, r);
    LeadsCan(c, u, t);
    assert RowKey(c.routing, s.rows[r]).doc == d;
    WriteLater(c, s, u, d);
  }

  /** A lone worker that stands on an upsert of `d` and is not spent. */
  lemma WriteHere(c: Config, s: State, w: WorkerId, wk: Worker, d: DocId)
    requires Inv(c, s) && Only(s, w, wk) && wk.HasRow()
    requires wk.Current().doc == d && wk.Current().op.UpsertChunk? && !Spent(wk, wk.cursor)
    ensures CanWrite(c, s, d)
  {
    assert WorkerOk(s, s.workers[w]) && SnapOk(s, wk.Current());
    if wk.phase.Calling? && wk.phase.calls < 2 {
      var t := Apply(c, s, Call(w));
      CanLeadOne(c, s, Call(w), true);
      var key := UpsertKey(c.routing, d, wk.Current().op);
      assert key.doc == d && (key in t.qdrant || key in t.es);
    } else {
      var t, held := RaiseRetry(c, s, w, wk, true);
      CanLeadInv(c, s, t, true);
      OpenWrites(c, t, d, wk.Current().id);
      WriteLater(c, s, t, d);
    }
  }

  lemma {:induction false} WriteAhead(c: Config, s: State, w: WorkerId, wk: Worker, d: DocId, j: nat)
    requires Inv(c, s) && Only(s, w, wk) && wk.cursor <= j < |wk.batch|
    requires wk.batch[j].doc == d && wk.batch[j].op.UpsertChunk? && !Spent(wk, j)
    ensures CanWrite(c, s, d)
    decreases j - wk.cursor
  {
    if j == wk.cursor {
      WriteHere(c, s, w, wk, d);
    } else {
      assert WorkerOk(s, s.workers[w]);
      var t, held := PassRow(c, s, w, wk, true);
      CanLeadInv(c, s, t, true);
      WriteAhead(c, t, w, wk.Advance(held), d, j);
      WriteLater(c, s, t, d);
    }
  }

  lemma HeldWrites(c: Config, s: State, d: DocId, w: WorkerId, j: nat)
    requires Inv(c, s) && w in s.workers && s.workers[w].cursor <= j < |s.workers[w].batch|
    requires var snap := s.workers[w].batch[j]; snap.doc == d && snap.op.UpsertChunk? && !Spent(s.workers[w], j)
    ensures CanWrite(c, s, d)
  {
    var u := Among(s, {w});
    CrashRest(c, s, {w}, true);
    CanLeadInv(c, s, u, true);
    assert Only(u, w, s.workers[w]);
    WriteAhead(c, u, w, s.workers[w], d, j);
    WriteLater(c, s, u, d);
  }

  lemma FlightWrites(c: Config, s: State, d: DocId, w: WorkerId)
    requires Inv(c, s) && w in s.workers && InFlight(s.workers[w], d)
    ensures CanWrite(c, s, d)
  {
    var wk := s.workers[w];
    var j :| wk.cursor <= j < |wk.batch| && wk.batch[j].doc == d && wk.batch[j].op.UpsertChunk? && !Spent(wk, j);
    HeldWrites(c, s, d, w, j);
  }

  /** Exactly when an emptied document stays empty: iff no upsert row of it is open, and no worker
      has one at or ahead of its cursor that it may still write or put back. An upsert that failed
      and waits for its retry brings its chunk back. */
  lemma StaysEmptyIff(c: Config, s: State, d: DocId)
    requires Reachable(c, s) && d in s.docs && Empty(s, d)
    ensures EmptyForever(c, s, d) <==> Quiet(s, d)
  {
    ReachableInv(c, s);
    if Quiet(s, d) {
      forall t | Leads(c, s, t)
        ensures Empty(t, d)
      {
        var es :| Runs(c, s, es, t);
        RunKeepsClear(c, s, es, t, d);
      }
    } else {
      if r: RowId :| OpenUpsert(s, d, r) {
        OpenWrites(c, s, d, r);
      } else {
        var w :| w in s.workers && InFlight(s.workers[w], d);
        FlightWrites(c, s, d, w);
      }
      var t :| CanLead(c, s, t, true) && !Empty(t, d);
      LeadsCan(c, s, t);
    }
  }

  // ---- The literal collection names ----

  lemma {:induction false} AsCodedKeeps(c: Config, s: State, es: seq<Event>, t: State, key: Key)
    requires c.routing == AsCoded && Inv(c, s) && Runs(c, s, es, t)
    ensures key in s.qdrant ==> key in t.qdrant && t.qdrant[key] == s.qdrant[key]
    ensures key in s.es ==> key in t.es && t.es[key] == s.es[key]
    decreases |es|
  {
    if es != [] {
      StepInv(c, s, es[0]);
      AsCodedStep(c, s, es[0], key);
      AsCodedKeeps(c, Apply(c, s, es[0]), es[1..], t, key);
    }
  }

  /** With the names as coded the two handlers never meet: whatever is in a store in a reachable
      state is still there, unchanged, in every later one, whichever documents are deleted. */
  lemma AsCodedNeverRemoves(c: Config, s: State, es: seq<Event>, t: State, key: Key)
    requires c.routing == AsCoded && Reachable(c, s) && Runs(c, s, es, t)
    ensures key in s.qdrant ==> key in t.qdrant && t.qdrant[key] == s.qdrant[key]
    ensures key in s.es ==> key in t.es && t.es[key] == s.es[key]
  {
    ReachableInv(c, s);
    AsCodedKeeps(c, s, es, t, key);
  }

  lemma NamesDiffer(m: Metadata, user: UserId, other: UserId)
    ensures UpsertCollection(AsCoded, m, user) != DeleteCollection(AsCoded, other)
  {
    assert |"user_docs_" + UserHash(m)| > |"user_docs"|;
  }

  lemma AsCodedStored(c: Config, s: State, key: Key, user: UserId)
    requires c.routing == AsCoded && Inv(c, s) && (key in s.qdrant || key in s.es)
    ensures key.coll != DeleteCollection(AsCoded, user)
  {
    assert key in s.qdrant ==> PointJustified(AsCoded, s, key, s.qdrant[key]);
    assert key in s.es ==> EsJustified(AsCoded, s, key, s.es[key]);
    assert KeyJustified(AsCoded, s, key);
    var op := s.rows[s.first[key.doc] + key.index].op;
    NamesDiffer(op.metadata, op.user, user);
  }

  lemma AsCodedDelete(c: Config, s: State, snap: Snap, k: nat, key: Key)
    requires c.routing == AsCoded && Inv(c, s) && snap.op.DeleteChunks?
    ensures var t := DoCall(AsCoded, s, snap, k);
            && (key in s.qdrant ==> key in t.qdrant && t.qdrant[key] == s.qdrant[key])
            && (key in s.es ==> key in t.es && t.es[key] == s.es[key])
  {
    if key in s.qdrant || key in s.es {
      AsCodedStored(c, s, key, snap.op.user);
    }
  }

  /** An upsert puts under its key what is there already, if anything is. */
  lemma UpsertRepeats(c: Config, s: State, snap: Snap, k: nat, key: Key)
    requires Inv(c, s) && SnapOk(s, snap) && snap.op.UpsertChunk?
    ensures var t := DoCall(c.routing, s, snap, k);
            && (key in s.qdrant ==> key in t.qdrant && t.qdrant[key] == s.qdrant[key])
            && (key in s.es ==> key in t.es && t.es[key] == s.es[key])
  {
    JustifiedRow(c.routing, s, snap);
    assert key in s.qdrant ==> PointJustified(c.routing, s, key, s.qdrant[key]);
    assert key in s.es ==> EsJustified(c.routing, s, key, s.es[key]);
  }

  lemma AsCodedStep(c: Config, s: State, e: Event, key: Key)
    requires c.routing == AsCoded && Inv(c, s) && Enabled(c, s, e)
    ensures key in s.qdrant ==> key in Apply(c, s, e).qdrant && Apply(c, s, e).qdrant[key] == s.qdrant[key]
    ensures key in s.es ==> key in Apply(c, s, e).es && Apply(c, s, e).es[key] == s.es[key]
  {
    if e.Call? {
      var wk := s.workers[e.w];
      assert WorkerOk(s, wk) && SnapOk(s, wk.Current());
      if wk.Current().op.DeleteChunks? {
        AsCodedDelete(c, s, wk.Current(), wk.phase.calls, key);
      } else {
        UpsertRepeats(c, s, wk.Current(), wk.phase.calls, key);
      }
    }
  }
}
