/**
Concrete runs of the outbox that show where its guarantees end.
*/
module OutboxRuns {
  import opened OutboxModel
  import opened OutboxSafety
  import opened OutboxMoves
  import opened OutboxWakeup
  import OutboxDelete

  function AfterFailures(row: Row, n: nat): Row {
    row.(retry := row.retry + n, status := FailedStatus(row.retry + n))
  }

  lemma StillFree(s: State, s1: State, w: WorkerId, r: RowId, wk: Worker)
    requires w !in s.workers && !HeldByOther(s, w, r) && s1.workers == s.workers[w := wk]
    ensures !HeldByOther(s1, w, r)
  {
    assert forall v :: v in s1.workers && v != w ==> v in s.workers && s1.workers[v] == s.workers[v];
  }

  /** A batch of one row, claimed and failed, before it ends. */
  lemma ClaimAndFail(c: Config, s: State, w: WorkerId, r: RowId) returns (t: State, wk: Worker)
    requires w !in s.workers && r < |s.rows| && s.rows[r].status == PENDING && !HeldByOther(s, w, r)
    ensures Leads(c, s, t) && !wk.HasRow()
    ensures t == s.(rows := s.rows[r := AfterFailures(s.rows[r], 1)], workers := s.workers[w := wk])
  {
    var s1 := ClaimOne(c, s, w, r);
    StillFree(s, s1, w, r, s1.workers[w]);
    t := FailRow(c, s1, w);
    wk := t.workers[w];
    PutTwice(s.workers, w, s1.workers[w], wk);
    LeadsTrans(c, s, s1, t);
  }

  /** A batch of one row whose handler raises. */
  lemma FailRound(c: Config, s: State, w: WorkerId, r: RowId) returns (t: State)
    requires w !in s.workers && r < |s.rows| && s.rows[r].status == PENDING && !HeldByOther(s, w, r)
    ensures Leads(c, s, t)
    ensures t == s.(rows := s.rows[r := AfterFailures(s.rows[r], 1)])
  {
    var u, wk := ClaimAndFail(c, s, w, r);
    t := EndBatch(c, u, w);
    PutDrop(s.workers, w, wk);
    LeadsTrans(c, s, u, t);
  }

  lemma PutTwice<K, V>(m: map<K, V>, k: K, v: V, v': V)
    ensures m[k := v][k := v'] == m[k := v']
  {
  }

  lemma PutDrop<K, V>(m: map<K, V>, k: K, v: V)
    requires k !in m
    ensures m[k := v] - {k} == m
  {
  }

  lemma {:induction false} FailRounds(c: Config, s: State, w: WorkerId, r: RowId, n: nat) returns (t: State)
    requires w !in s.workers && r < |s.rows| && s.rows[r].status == PENDING && !HeldByOther(s, w, r)
    requires 1 <= n && s.rows[r].retry + n <= MAX_RETRIES
    ensures Leads(c, s, t)
    ensures t == s.(rows := s.rows[r := AfterFailures(s.rows[r], n)])
  {
    if n == 1 {
      t := FailRound(c, s, w, r);
    } else {
      var u := FailRounds(c, s, w, r, n - 1);
      t := FailRound(c, u, w, r);
      LeadsTrans(c, s, u, t);
    }
  }

  lemma Ingested(c: Config, chunks: seq<string>) returns (t: State)
    ensures Reachable(c, t)
    ensures t.docs == map[0 := Doc(0, Processing, |chunks|)]
    ensures t.rows == FreshRows(0, 0, map[], chunks) && t.workers == map[]
  {
    var e := Ingest(0, 0, map[], chunks);
    t := Apply(c, INIT, e);
    assert t.rows == FreshRows(0, 0, map[], chunks);
    LeadsOne(c, INIT, e);
  }

  /** Worker 0, the only one, claims every row. */
  lemma ClaimAll(c: Config, s: State) returns (t: State, wk: Worker)
    requires s.workers == map[] && |s.rows| <= BATCH_LIMIT
    requires forall r :: 0 <= r < |s.rows| ==> s.rows[r].status == PENDING
    ensures Leads(c, s, t) && t == s.(workers := map[0 := wk])
    ensures |wk.batch| == |s.rows| && wk.cursor == 0 && wk.phase == Calling(0)
    ensures forall i :: 0 <= i < |s.rows| ==> wk.batch[i] == Snap1(s, i)
  {
    var ids: seq<RowId> := seq(|s.rows|, i requires 0 <= i < |s.rows| => i);
    assert Enabled(c, s, Claim(0, ids));
    t := Apply(c, s, Claim(0, ids));
    wk := t.workers[0];
    LeadsOne(c, s, Claim(0, ids));
  }

  /** One ingest of some chunks and a claim of all its rows by worker 0. */
  lemma IngestClaim(c: Config, chunks: seq<string>) returns (t: State)
    requires |chunks| <= BATCH_LIMIT
    ensures Reachable(c, t)
    ensures t.docs == map[0 := Doc(0, Processing, |chunks|)]
    ensures t.rows == FreshRows(0, 0, map[], chunks)
    ensures t.workers.Keys == {0} && |t.workers[0].batch| == |chunks|
    ensures t.workers[0].cursor == 0 && t.workers[0].phase == Calling(0)
    ensures forall i :: 0 <= i < |chunks| ==> t.workers[0].batch[i] == Snap1(t, i)
  {
    var s := Ingested(c, chunks);
    var wk: Worker;
    t, wk := ClaimAll(c, s);
    LeadsTrans(c, INIT, s, t);
  }

  /** One chunk, relayed up to its publish commit. */
  lemma OneChunkPublished(c: Config) returns (t: State)
    ensures Reachable(c, t)
    ensures t.docs == map[0 := Doc(0, Processing, 1)]
    ensures |t.rows| == 1 && t.rows[0].doc == 0 && t.rows[0].status == PUBLISHED
    ensures t.workers.Keys == {0} && t.workers[0].phase == AtCount
    ensures |t.workers[0].batch| == 1 && t.workers[0].cursor == 0
    ensures t.workers[0].Current().id == 0 && t.workers[0].Current().retry == 0
  {
    var s := IngestClaim(c, ["a"]);
    assert !HeldByOther(s, 0, 0);
    t := Deliver(c, s, 0);
    LeadsTrans(c, INIT, s, t);
  }

  // ---- Runs ----

  /** The wake-up a crash loses: the worker dies between the publish commit and the ready check,
      and the document stays in `processing` in every continuation without a deletion. */
  lemma CrashLosesWakeup(c: Config) returns (t: State)
    ensures Reachable(c, t) && Stuck(t, 0)
    ensures forall es, u :: Runs(c, t, es, u) && DeleteDoc(0) !in es ==>
              0 in u.docs && u.docs[0].status == Processing
  {
    var s := OneChunkPublished(c);
    t := Apply(c, s, Crash(0));
    LeadsOne(c, s, Crash(0));
    LeadsTrans(c, INIT, s, t);
    assert t.workers == map[];
    forall es, u | Runs(c, t, es, u) && DeleteDoc(0) !in es
      ensures 0 in u.docs && u.docs[0].status == Processing
    {
      StuckForever(c, t, es, u, 0);
    }
  }

  /** Even with batch-long locks a published row goes back to open when the ready check after
      its publish commit raises. */
  lemma ReadyCheckFailureReopens(c: Config) returns (t: State, u: State)
    ensures Reachable(c, t) && Leads(c, t, u)
    ensures |t.rows| == 1 && |u.rows| == 1
    ensures t.rows[0].status == PUBLISHED && u.rows[0].status == PENDING
  {
    t := OneChunkPublished(c);
    ReachableInv(c, t);
    assert WorkerOk(t, t.workers[0]) && SnapOk(t, t.workers[0].Current());
    assert !HeldByOther(t, 0, 0);
    u := FailRow(c, t, 0);
  }

  /** Under per-row commits a row two workers hold is dead-lettered by one and put back to open
      by the other, from a stale snapshot: dead is not terminal, the retry count falls from 5 to
      1, and the row suffers a sixth failed attempt. */
  lemma StaleSnapshotRevivesDead() returns (t: State, u: State)
    ensures Reachable(Config(PerRowCommit, PerUser), t) && Leads(Config(PerRowCommit, PerUser), t, u)
    ensures |t.rows| == 2 && |u.rows| == 2
    ensures t.rows[1].status == DEAD && t.rows[1].retry == MAX_RETRIES
    ensures u.rows[1].status == PENDING && u.rows[1].retry == 1
  {
    var c := Config(PerRowCommit, PerUser);
    var s1 := IngestClaim(c, ["a", "b"]);
    assert s1.workers[0].batch[1] == Snap1(s1, 1);
    assert !HeldByOther(s1, 0, 0);
    var s2 := Deliver(c, s1, 0);
    assert s2.workers.Keys == {0} && s2.workers[0].held == {};
    assert !HeldByOther(s2, 1, 1);
    t := FailRounds(c, s2, 1, 1, 5);
    LeadsTrans(c, INIT, s1, s2);
    LeadsTrans(c, INIT, s2, t);
    u := SkipAndFail(c, t);
  }

  /** Worker 0 moves on from its first row and fails its second from the snapshot it has. */
  lemma SkipAndFail(c: Config, s: State) returns (u: State)
    requires |s.rows| == 2 && s.workers.Keys == {0}
    requires var wk := s.workers[0];
             wk.cursor == 0 && wk.phase == AtCount && |wk.batch| == 2 && wk.batch[0].id == 0 && wk.batch[1].id == 1
             && wk.batch[0].doc == s.rows[1].doc && wk.batch[1].retry == 0
    requires s.rows[1].status != PUBLISHED
    ensures Leads(c, s, u)
    ensures |u.rows| == 2 && u.rows[1].status == PENDING && u.rows[1].retry == 1
  {
    assert !AllPublished(s.rows, s.workers[0].Current().doc);
    var s1 := Apply(c, s, Count(0));
    assert !HeldByOther(s1, 0, 1);
    u := FailRow(c, s1, 0);
    LeadsOne(c, s, Count(0));
    LeadsTrans(c, s, s1, u);
  }

  lemma OneChunkDeleted(c: Config) returns (t: State)
    ensures Reachable(c, t) && t.workers == map[]
    ensures t.docs == map[0 := Doc(0, Deleting, 1)]
    ensures t.rows == [Row(0, UpsertChunk(0, "a", map[], 0), PENDING, 0), Row(0, DeleteChunks(0), PENDING, 0)]
  {
    var s := Ingested(c, ["a"]);
    assert s.rows == [Row(0, UpsertChunk(0, "a", map[], 0), PENDING, 0)];
    t := Apply(c, s, DeleteDoc(0));
    LeadsOne(c, s, DeleteDoc(0));
    LeadsTrans(c, INIT, s, t);
  }

  /** One chunk ingested, its document deleted, and both rows claimed by one batch. */
  lemma IngestDeleteClaim(c: Config) returns (t: State)
    ensures Reachable(c, t)
    ensures t.docs == map[0 := Doc(0, Deleting, 1)]
    ensures t.rows == [Row(0, UpsertChunk(0, "a", map[], 0), PENDING, 0), Row(0, DeleteChunks(0), PENDING, 0)]
    ensures t.workers.Keys == {0}
    ensures t.workers[0].batch == [Snap1(t, 0), Snap1(t, 1)]
    ensures t.workers[0].cursor == 0 && t.workers[0].phase == Calling(0)
  {
    var s := OneChunkDeleted(c);
    var wk: Worker;
    t, wk := ClaimAll(c, s);
    LeadsTrans(c, INIT, s, t);
  }

  /** The delete handler of a one-chunk document, its publish commit and its ready check. */
  lemma DeleteRow(c: Config, s: State) returns (t: State)
    requires s.workers.Keys == {0} && Busy(s, 0) && s.workers[0].phase == Calling(0)
    requires s.workers[0].Current() == Snap(1, 0, DeleteChunks(0), 0)
    requires s.docs == map[0 := Doc(0, Deleting, 1)]
    requires |s.rows| == 2 && s.rows[0].doc == 0 && s.rows[0].status == PENDING
    ensures Leads(c, s, t)
    ensures t.rows == s.rows[1 := s.rows[1].(status := PUBLISHED)] && t.docs == s.docs
    ensures t.workers.Keys == {0} && t.workers[0].cursor == s.workers[0].cursor + 1
    ensures t.workers[0].batch == s.workers[0].batch
  {
    var s1 := Apply(c, s, Call(0));
    assert s1.workers.Keys == {0} && s1.workers[0].phase == Calling(1);
    var s2 := Apply(c, s1, Call(0));
    assert s2.workers.Keys == {0} && CallsOf(s2, s2.workers[0].Current()) == 2;
    assert !HeldByOther(s2, 0, 1);
    var s3 := Apply(c, s2, Publish(0));
    assert s3.rows[0].doc == 0 && !AllPublished(s3.rows, 0);
    t := Apply(c, s3, Count(0));
    LeadsOne(c, s, Call(0));
    LeadsOne(c, s1, Call(0));
    LeadsTrans(c, s, s1, s2);
    LeadsOne(c, s2, Publish(0));
    LeadsTrans(c, s, s2, s3);
    LeadsOne(c, s3, Count(0));
    LeadsTrans(c, s, s3, t);
  }

  /** The batch that makes a deletion undo itself: the upsert fails, the delete row behind it is
      relayed and published, and then the upsert's retry writes the chunk. */
  lemma DeleteThenRetryResurrects(locks: Discipline) returns (t: State, u: State)
    ensures Reachable(Config(locks, PerUser), t) && Leads(Config(locks, PerUser), t, u)
    ensures OutboxDelete.DeleteDone(t, 0, 1)
    ensures Key(OfUser(0), 0, 0) in u.qdrant && Key(OfUser(0), 0, 0) in u.es
  {
    var c := Config(locks, PerUser);
    var s1 := IngestDeleteClaim(c);
    assert !HeldByOther(s1, 0, 0);
    var s2 := FailRow(c, s1, 0);
    var s3 := DeleteRow(c, s2);
    t := EndBatch(c, s3, 0);
    LeadsTrans(c, INIT, s1, s2);
    LeadsTrans(c, INIT, s2, s3);
    LeadsTrans(c, INIT, s3, t);
    assert t.workers == map[];
    ReachableInv(c, t);
    assert OutboxDelete.OpenUpsert(t, 0, 0);
    u := OutboxDelete.Resurrect(c, t, 0, 0);
    assert RowKey(c.routing, t.rows[0]) == Key(OfUser(0), 0, 0);
  }
}
