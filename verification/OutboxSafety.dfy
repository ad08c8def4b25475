/**
Safety of the outbox over every run, under either lock discipline and either routing:
workers may overlap, act on stale snapshots, fail after any external call, or crash.
*/
module OutboxSafety {
  import opened OutboxModel

  // ---- What a row writes ----

  function RowKey(r: Routing, row: Row): Key
    requires row.op.UpsertChunk?
  {
    UpsertKey(r, row.doc, row.op)
  }

  function RowPoint(row: Row): Point
    requires row.op.UpsertChunk?
  {
    Point(row.op.text, row.op.metadata)
  }

  function RowEsDoc(row: Row): EsDoc
    requires row.op.UpsertChunk?
  {
    EsDoc(row.op.text, row.op.index)
  }

  // ---- Invariant ----

  /** Row `i` of document `d`'s ingest is where the history variable says it is. */
  predicate IsChunkRow(s: State, d: DocId, i: nat) {
    && d in s.first
    && s.first[d] + i < |s.rows|
    && s.rows[s.first[d] + i].doc == d
    && s.rows[s.first[d] + i].op.UpsertChunk?
    && s.rows[s.first[d] + i].op.index == i
  }

  predicate RowOk(s: State, r: RowId)
    requires r < |s.rows|
  {
    var row := s.rows[r];
    && row.doc in s.docs && row.doc in s.first
    && row.op.user == s.docs[row.doc].user
    && (row.op.UpsertChunk? ==>
          row.op.index < s.docs[row.doc].chunkCount && r == s.first[row.doc] + row.op.index)
    && (row.op.DeleteChunks? ==> s.docs[row.doc].status == Deleting)
  }

  ghost predicate Tables(s: State) {
    && s.first.Keys == s.docs.Keys
    && (forall d, i: nat :: d in s.docs && i < s.docs[d].chunkCount ==> IsChunkRow(s, d, i))
    && (forall r :: 0 <= r < |s.rows| ==> RowOk(s, r))
  }

  predicate SnapOk(s: State, snap: Snap) {
    && snap.id < |s.rows|
    && s.rows[snap.id].doc == snap.doc
    && s.rows[snap.id].op == snap.op
    && snap.retry < MAX_RETRIES
  }

  predicate WorkerOk(s: State, wk: Worker) {
    && wk.cursor <= |wk.batch|
    && (!wk.HasRow() ==> wk.phase == Calling(0))
    && (forall j :: 0 <= j < |wk.batch| ==> SnapOk(s, wk.batch[j]))
  }

  ghost predicate Workers(s: State) {
    forall w :: w in s.workers ==> WorkerOk(s, s.workers[w])
  }

  predicate KeyJustified(r: Routing, s: State, key: Key) {
    && key.doc in s.docs
    && key.index < s.docs[key.doc].chunkCount
    && IsChunkRow(s, key.doc, key.index)
    && key == RowKey(r, s.rows[s.first[key.doc] + key.index])
  }

  predicate PointJustified(r: Routing, s: State, key: Key, v: Point) {
    KeyJustified(r, s, key) && v == RowPoint(s.rows[s.first[key.doc] + key.index])
  }

  predicate EsJustified(r: Routing, s: State, key: Key, v: EsDoc) {
    KeyJustified(r, s, key) && v == RowEsDoc(s.rows[s.first[key.doc] + key.index])
  }

  /** Neither store holds anything but what the ingest rows say. */
  ghost predicate Stores(c: Config, s: State) {
    && (forall key :: key in s.qdrant ==> PointJustified(c.routing, s, key, s.qdrant[key]))
    && (forall key :: key in s.es ==> EsJustified(c.routing, s, key, s.es[key]))
  }

  predicate InQdrant(c: Config, s: State, d: DocId, i: nat)
    requires IsChunkRow(s, d, i)
  {
    RowKey(c.routing, s.rows[s.first[d] + i]) in s.qdrant
  }

  predicate InEs(c: Config, s: State, d: DocId, i: nat)
    requires IsChunkRow(s, d, i)
  {
    RowKey(c.routing, s.rows[s.first[d] + i]) in s.es
  }

  predicate ChunkPresent(c: Config, s: State, d: DocId, i: nat) {
    IsChunkRow(s, d, i) && InQdrant(c, s, d, i) && InEs(c, s, d, i)
  }

  /** Both stores hold the chunk, with the content of its ingest row. */
  predicate ChunkExact(c: Config, s: State, d: DocId, i: nat) {
    && ChunkPresent(c, s, d, i)
    && var row := s.rows[s.first[d] + i];
       var key := RowKey(c.routing, row);
       s.qdrant[key] == RowPoint(row) && s.es[key] == RowEsDoc(row)
  }

  ghost predicate AllPresent(c: Config, s: State, d: DocId) {
    d in s.docs && forall i: nat :: i < s.docs[d].chunkCount ==> ChunkPresent(c, s, d, i)
  }

  predicate Live(s: State, d: DocId) {
    d in s.docs && s.docs[d].status != Deleting
  }

  /** What the worker's phase says about its current row's writes. */
  ghost predicate PhaseOk(c: Config, s: State, wk: Worker) {
    wk.HasRow() && Live(s, wk.Current().doc) && wk.Current().op.UpsertChunk? ==>
      var d, i := wk.Current().doc, wk.Current().op.index;
      && IsChunkRow(s, d, i)
      && (wk.phase.Calling? && wk.phase.calls >= 1 ==> InQdrant(c, s, d, i))
      && (wk.phase.Calling? && wk.phase.calls >= 2 ==> InEs(c, s, d, i))
      && (wk.phase == AtMark ==> AllPresent(c, s, d) && s.docs[d].chunkCount > 0)
  }

  /** A published upsert of a document that is not being deleted. */
  predicate Written(s: State, r: RowId)
    requires r < |s.rows|
  {
    s.rows[r].status == PUBLISHED && s.rows[r].op.UpsertChunk? && Live(s, s.rows[r].doc)
  }

  ghost predicate Progress(c: Config, s: State) {
    && (forall w :: w in s.workers ==> PhaseOk(c, s, s.workers[w]))
    && (forall r | 0 <= r < |s.rows| && Written(s, r) ::
          ChunkPresent(c, s, s.rows[r].doc, s.rows[r].op.index))
    && (forall d :: d in s.docs && s.docs[d].status == Ready ==>
          AllPresent(c, s, d) && s.docs[d].chunkCount > 0)
  }

  predicate RetryOk(row: Row) {
    && row.retry <= MAX_RETRIES
    && (row.status == PENDING ==> row.retry < MAX_RETRIES)
    && (row.status == DEAD ==> row.retry == MAX_RETRIES)
  }

  ghost predicate Retries(s: State) {
    forall r :: 0 <= r < |s.rows| ==> RetryOk(s.rows[r])
  }

  ghost predicate Inv(c: Config, s: State) {
    Tables(s) && Workers(s) && Stores(c, s) && Progress(c, s) && Retries(s)
  }

  // ---- One step ----

  /** Rows are never removed, and their document and operation never change. */
  ghost predicate Extends(s: State, t: State) {
    && |s.rows| <= |t.rows|
    && (forall r :: 0 <= r < |s.rows| ==> t.rows[r].doc == s.rows[r].doc && t.rows[r].op == s.rows[r].op)
    && (forall d :: d in s.docs ==> d in t.docs && t.docs[d].chunkCount == s.docs[d].chunkCount
                                    && t.docs[d].user == s.docs[d].user
                                    && (s.docs[d].status == Deleting ==> t.docs[d].status == Deleting))
    && (forall d :: d in s.docs && d in s.first ==> d in t.first && t.first[d] == s.first[d])
  }

  lemma StepExtends(c: Config, s: State, e: Event)
    requires Enabled(c, s, e)
    ensures Extends(s, Apply(c, s, e))
  {
  }

  lemma StepTables(c: Config, s: State, e: Event)
    requires Tables(s) && Workers(s) && Enabled(c, s, e)
    ensures Tables(Apply(c, s, e))
  {
    var t := Apply(c, s, e);
    StepExtends(c, s, e);
    forall d, i: nat | d in t.docs && i < t.docs[d].chunkCount
      ensures IsChunkRow(t, d, i)
    {
      if d in s.docs {
        assert IsChunkRow(s, d, i);
      }
    }
    forall r | 0 <= r < |t.rows|
      ensures RowOk(t, r)
    {
      if r < |s.rows| {
        assert RowOk(s, r);
      }
    }
  }

  lemma StepWorkers(c: Config, s: State, e: Event)
    requires Tables(s) && Workers(s) && Retries(s) && Enabled(c, s, e)
    ensures Workers(Apply(c, s, e))
  {
    var t := Apply(c, s, e);
    StepExtends(c, s, e);
    forall w | w in t.workers
      ensures WorkerOk(t, t.workers[w])
    {
      if w in s.workers {
        assert WorkerOk(s, s.workers[w]);
        assert t.workers[w].batch == s.workers[w].batch;
        forall j | 0 <= j < |t.workers[w].batch|
          ensures SnapOk(t, t.workers[w].batch[j])
        {
          assert SnapOk(s, s.workers[w].batch[j]);
        }
      } else {
        assert e.Claim?;
        forall j | 0 <= j < |e.ids|
          ensures SnapOk(t, t.workers[w].batch[j])
        {
          assert RetryOk(s.rows[e.ids[j]]);
        }
      }
    }
  }

  lemma JustifiedRow(r: Routing, s: State, snap: Snap)
    requires Tables(s) && SnapOk(s, snap) && snap.op.UpsertChunk?
    ensures PointJustified(r, s, UpsertKey(r, snap.doc, snap.op), Point(snap.op.text, snap.op.metadata))
    ensures EsJustified(r, s, UpsertKey(r, snap.doc, snap.op), EsDoc(snap.op.text, snap.op.index))
  {
    assert RowOk(s, snap.id);
    assert IsChunkRow(s, snap.doc, snap.op.index);
  }

  /** A call adds at most the justified entry of its row, or removes entries. */
  lemma CallStores(c: Config, s: State, snap: Snap, k: nat, key: Key)
    requires Tables(s) && SnapOk(s, snap)
    ensures var t := DoCall(c.routing, s, snap, k);
            && (key in t.qdrant ==>
                  (key in s.qdrant && t.qdrant[key] == s.qdrant[key])
                  || PointJustified(c.routing, s, key, t.qdrant[key]))
            && (key in t.es ==>
                  (key in s.es && t.es[key] == s.es[key]) || EsJustified(c.routing, s, key, t.es[key]))
  {
    if snap.op.UpsertChunk? {
      JustifiedRow(c.routing, s, snap);
    }
  }

  lemma JustifiedExtends(r: Routing, s: State, t: State, key: Key)
    requires Extends(s, t)
    ensures forall v: Point :: PointJustified(r, s, key, v) ==> PointJustified(r, t, key, v)
    ensures forall v: EsDoc :: EsJustified(r, s, key, v) ==> EsJustified(r, t, key, v)
  {
  }

  lemma StepStoresAt(c: Config, s: State, e: Event, key: Key)
    requires Tables(s) && Workers(s) && Stores(c, s) && Enabled(c, s, e)
    ensures var t := Apply(c, s, e);
            && (key in t.qdrant ==> PointJustified(c.routing, s, key, t.qdrant[key]))
            && (key in t.es ==> EsJustified(c.routing, s, key, t.es[key]))
  {
    if e.Call? {
      var wk := s.workers[e.w];
      assert WorkerOk(s, wk) && SnapOk(s, wk.Current());
      CallStores(c, s, wk.Current(), wk.phase.calls, key);
    }
  }

  lemma StepStores(c: Config, s: State, e: Event)
    requires Tables(s) && Workers(s) && Stores(c, s) && Enabled(c, s, e)
    ensures Stores(c, Apply(c, s, e))
  {
    var t := Apply(c, s, e);
    StepExtends(c, s, e);
    forall key
      ensures key in t.qdrant ==> PointJustified(c.routing, t, key, t.qdrant[key])
      ensures key in t.es ==> EsJustified(c.routing, t, key, t.es[key])
    {
      StepStoresAt(c, s, e, key);
      JustifiedExtends(c.routing, s, t, key);
    }
  }

  /** A chunk of a document that is not being deleted never leaves a store. */
  lemma StepKeepsChunk(c: Config, s: State, e: Event, d: DocId, i: nat)
    requires Tables(s) && Workers(s) && Enabled(c, s, e)
    requires d in s.docs && IsChunkRow(s, d, i) && Live(Apply(c, s, e), d)
    ensures IsChunkRow(Apply(c, s, e), d, i)
    ensures InQdrant(c, s, d, i) ==> InQdrant(c, Apply(c, s, e), d, i)
    ensures InEs(c, s, d, i) ==> InEs(c, Apply(c, s, e), d, i)
  {
    StepExtends(c, s, e);
    if e.Call? {
      var snap := s.workers[e.w].Current();
      assert WorkerOk(s, s.workers[e.w]) && SnapOk(s, snap);
      assert RowOk(s, snap.id);
    }
  }

  lemma StepKeepsAll(c: Config, s: State, e: Event, d: DocId)
    requires Tables(s) && Workers(s) && Enabled(c, s, e)
    requires AllPresent(c, s, d) && Live(Apply(c, s, e), d)
    ensures AllPresent(c, Apply(c, s, e), d)
  {
    StepExtends(c, s, e);
    forall i: nat | i < s.docs[d].chunkCount
      ensures ChunkPresent(c, Apply(c, s, e), d, i)
    {
      assert ChunkPresent(c, s, d, i);
      StepKeepsChunk(c, s, e, d, i);
    }
  }

  /** The count query saw every row published, so every chunk has been written. */
  lemma CountSeesAll(c: Config, s: State, d: DocId)
    requires Tables(s) && Progress(c, s) && Live(s, d) && AllPublished(s.rows, d)
    ensures AllPresent(c, s, d)
  {
    forall i: nat | i < s.docs[d].chunkCount
      ensures ChunkPresent(c, s, d, i)
    {
      assert IsChunkRow(s, d, i);
      assert s.rows[s.first[d] + i].status == PUBLISHED;
    }
  }

  /** The worker that moves. */
  lemma StepPhaseMover(c: Config, s: State, e: Event)
    requires Tables(s) && Workers(s) && Progress(c, s) && Enabled(c, s, e)
    requires !e.Ingest? && !e.DeleteDoc? && !e.Claim? && !e.Finish? && !e.Crash?
    ensures PhaseOk(c, Apply(c, s, e), Apply(c, s, e).workers[e.w])
  {
    var t := Apply(c, s, e);
    var wk, wk' := s.workers[e.w], t.workers[e.w];
    var snap := wk.Current();
    assert WorkerOk(s, wk) && SnapOk(s, snap) && RowOk(s, snap.id) && PhaseOk(c, s, wk);
    if wk'.cursor == wk.cursor && Live(t, snap.doc) && snap.op.UpsertChunk? {
      var d, i := snap.doc, snap.op.index;
      assert IsChunkRow(s, d, i);
      StepKeepsChunk(c, s, e, d, i);
      if e.Count? {
        CountSeesAll(c, s, d);
        StepKeepsAll(c, s, e, d);
      }
    } else if wk'.HasRow() {
      assert wk'.cursor == wk.cursor || wk'.phase == Calling(0);
      assert SnapOk(s, wk'.Current()) && RowOk(s, wk'.Current().id);
      StepExtends(c, s, e);
    }
  }

  /** A worker that does not move. */
  lemma StepPhaseOther(c: Config, s: State, e: Event, w: WorkerId)
    requires Tables(s) && Workers(s) && Progress(c, s) && Enabled(c, s, e)
    requires w in s.workers && w in Apply(c, s, e).workers
    requires Apply(c, s, e).workers[w] == s.workers[w]
    ensures PhaseOk(c, Apply(c, s, e), Apply(c, s, e).workers[w])
  {
    var t := Apply(c, s, e);
    var wk := s.workers[w];
    if wk.HasRow() && Live(t, wk.Current().doc) && wk.Current().op.UpsertChunk? {
      var d, i := wk.Current().doc, wk.Current().op.index;
      assert WorkerOk(s, wk) && SnapOk(s, wk.Current()) && RowOk(s, wk.Current().id) && PhaseOk(c, s, wk);
      assert IsChunkRow(s, d, i);
      StepExtends(c, s, e);
      StepKeepsChunk(c, s, e, d, i);
      if wk.phase == AtMark {
        StepKeepsAll(c, s, e, d);
      }
    }
  }

  lemma StepPhase(c: Config, s: State, e: Event, w: WorkerId)
    requires Tables(s) && Workers(s) && Progress(c, s) && Enabled(c, s, e)
    requires w in Apply(c, s, e).workers
    ensures PhaseOk(c, Apply(c, s, e), Apply(c, s, e).workers[w])
  {
    var t := Apply(c, s, e);
    if e.Ingest? || e.DeleteDoc? || w != e.w {
      StepPhaseOther(c, s, e, w);
    } else if e.Claim? {
      if t.workers[w].HasRow() {
        assert RowOk(s, e.ids[0]);
        assert s.rows[e.ids[0]].op.UpsertChunk? ==>
            IsChunkRow(s, s.rows[e.ids[0]].doc, s.rows[e.ids[0]].op.index);
      }
    } else {
      StepPhaseMover(c, s, e);
    }
  }

  lemma StepProgress(c: Config, s: State, e: Event)
    requires Inv(c, s) && Enabled(c, s, e)
    ensures Progress(c, Apply(c, s, e))
  {
    var t := Apply(c, s, e);
    StepExtends(c, s, e);
    StepTables(c, s, e);
    forall w | w in t.workers
      ensures PhaseOk(c, t, t.workers[w])
    {
      StepPhase(c, s, e, w);
    }
    forall r | 0 <= r < |t.rows| && Written(t, r)
      ensures ChunkPresent(c, t, t.rows[r].doc, t.rows[r].op.index)
    {
      assert RowOk(s, r);
      var d, i := s.rows[r].doc, s.rows[r].op.index;
      assert IsChunkRow(s, d, i);
      StepKeepsChunk(c, s, e, d, i);
      if s.rows[r].status != PUBLISHED {
        assert e.Publish? && PhaseOk(c, s, s.workers[e.w]) && WorkerOk(s, s.workers[e.w]);
        assert SnapOk(s, s.workers[e.w].Current());
      }
    }
    forall d | d in t.docs && t.docs[d].status == Ready
      ensures AllPresent(c, t, d) && t.docs[d].chunkCount > 0
    {
      if s.docs[d].status == Ready {
        StepKeepsAll(c, s, e, d);
      } else {
        var wk := s.workers[e.w];
        assert e.Mark? && wk.Current().doc == d && PhaseOk(c, s, wk) && WorkerOk(s, wk);
        assert SnapOk(s, wk.Current()) && RowOk(s, wk.Current().id);
        StepKeepsAll(c, s, e, d);
      }
    }
  }

  lemma StepRetries(c: Config, s: State, e: Event)
    requires Workers(s) && Retries(s) && Enabled(c, s, e)
    ensures Retries(Apply(c, s, e))
  {
    var t := Apply(c, s, e);
    if e.FailCommit? {
      assert WorkerOk(s, s.workers[e.w]);
      assert SnapOk(s, s.workers[e.w].Current());
    }
    forall r | 0 <= r < |t.rows|
      ensures RetryOk(t.rows[r])
    {
      if r < |s.rows| {
        assert RetryOk(s.rows[r]);
      }
    }
  }

  lemma StepInv(c: Config, s: State, e: Event)
    requires Inv(c, s) && Enabled(c, s, e)
    ensures Inv(c, Apply(c, s, e))
  {
    StepTables(c, s, e);
    StepWorkers(c, s, e);
    StepStores(c, s, e);
    StepProgress(c, s, e);
    StepRetries(c, s, e);
  }

  // ---- Every run ----

  lemma {:induction false} RunInv(c: Config, s: State, es: seq<Event>, t: State)
    requires Inv(c, s) && Runs(c, s, es, t)
    ensures Inv(c, t)
    decreases |es|
  {
    if es != [] {
      StepInv(c, s, es[0]);
      RunInv(c, Apply(c, s, es[0]), es[1..], t);
    }
  }

  lemma ReachableInv(c: Config, t: State)
    requires Reachable(c, t)
    ensures Inv(c, t)
  {
    var es :| Runs(c, INIT, es, t);
    RunInv(c, INIT, es, t);
  }

  /** A row of the document's deletion is on record. */
  ghost predicate HasDeleteRow(s: State, d: DocId) {
    exists r :: 0 <= r < |s.rows| && s.rows[r].doc == d && s.rows[r].op.DeleteChunks?
  }

  /** Ready is sound: in every reachable state a document shown as ready has every one of
      its chunks, with the content that was ingested, in both stores, and no deletion queued. */
  lemma ReadySound(c: Config, s: State, d: DocId)
    requires Reachable(c, s)
    requires d in s.docs && s.docs[d].status == Ready
    ensures !HasDeleteRow(s, d)
    ensures s.docs[d].chunkCount > 0
    ensures forall i: nat :: i < s.docs[d].chunkCount ==> ChunkExact(c, s, d, i)
  {
    ReachableInv(c, s);
    forall r | 0 <= r < |s.rows| && s.rows[r].doc == d
      ensures !s.rows[r].op.DeleteChunks?
    {
      assert RowOk(s, r);
    }
    forall i: nat | i < s.docs[d].chunkCount
      ensures ChunkExact(c, s, d, i)
    {
      assert AllPresent(c, s, d) && ChunkPresent(c, s, d, i);
    }
  }

  /** In every run, stale snapshots included: an open row has retries left, a dead row has
      used exactly all of them. */
  lemma RetryBounds(c: Config, s: State, r: RowId)
    requires Reachable(c, s) && r < |s.rows|
    ensures s.rows[r].retry <= 5
    ensures s.rows[r].status == PENDING ==> s.rows[r].retry < 5
    ensures s.rows[r].status == DEAD ==> s.rows[r].retry == 5
  {
    ReachableInv(c, s);
    assert RetryOk(s.rows[r]);
  }
}
