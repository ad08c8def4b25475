/**
How a document's open rows and the workers that remember its rows make it ready.
*/
module OutboxReadyRuns {
  import opened OutboxModel
  import opened OutboxSafety
  import opened OutboxMoves
  import opened OutboxWakeup
  import opened OutboxFinal
  import opened OutboxReady
  import opened OutboxWalk
  import OutboxRetry

  lemma ReadyLater(c: Config, s: State, t: State, d: DocId)
    requires CanLead(c, s, t, true) && CanBecomeReady(c, t, d)
    ensures CanBecomeReady(c, s, d)
  {
    var u :| CanLead(c, t, u, true) && d in u.docs && u.docs[d].status == Ready;
    CanLeadTrans(c, s, t, u, true);
  }

  // ---- One worker ----

  /** The worker stands at the check, and the rows of the document are published. */
  lemma CheckReady(c: Config, s: State, w: WorkerId, wk: Worker, d: DocId)
    requires Inv(c, s) && Only(s, w, wk) && wk.HasRow() && wk.Current().doc == d && Checking(wk)
    requires AwaitsReady(s, d)
    ensures CanBecomeReady(c, s, d)
  {
    assert WorkerOk(s, s.workers[w]);
    var t: State, held: set<RowId>;
    if wk.phase == AtMark {
      t, held := MarkOn(c, s, w, wk, true);
    } else {
      t, held := CountMarkOn(c, s, w, wk, true);
    }
    assert t.docs[d].status == Ready;
  }

  /** Publishing a row that is open, or published already, as the last one of its document. */
  lemma PublishReady(c: Config, s: State, w: WorkerId, wk: Worker, d: DocId)
    requires Inv(c, s) && Only(s, w, wk) && wk.HasRow() && wk.Current().doc == d
    requires wk.phase.Calling? && CallsOk(s, wk)
    requires d in s.docs && s.docs[d].status == Processing && s.docs[d].chunkCount > 0
    requires forall k :: 0 <= k < |s.rows| && s.rows[k].doc == d && k != wk.Current().id ==>
               s.rows[k].status == PUBLISHED
    ensures CanBecomeReady(c, s, d)
  {
    assert WorkerOk(s, s.workers[w]) && SnapOk(s, wk.Current());
    var t, held := PublishOn(c, s, w, wk, true);
    CanLeadInv(c, s, t, true);
    CheckReady(c, t, w, wk.(phase := AtCount, held := held), d);
    ReadyLater(c, s, t, d);
  }

  /** An open row, the only unpublished one, and no worker left: it is claimed again. */
  lemma ReclaimReady(c: Config, s: State, d: DocId, r: RowId)
    requires Inv(c, s) && s.workers == map[] && r < |s.rows| && s.rows[r].doc == d && s.rows[r].status == PENDING
    requires d in s.docs && s.docs[d].status == Processing && s.docs[d].chunkCount > 0
    requires forall k :: 0 <= k < |s.rows| && s.rows[k].doc == d && k != r ==> s.rows[k].status == PUBLISHED
    ensures CanBecomeReady(c, s, d)
  {
    var wk := ClaimAlone(c, s, r, true);
    var t := s.(workers := map[0 := wk]);
    CanLeadInv(c, s, t, true);
    PublishReady(c, t, 0, wk, d);
    ReadyLater(c, s, t, d);
  }

  /** The ready check raised, with retries left: the row goes back and is relayed again. */
  lemma RetryReady(c: Config, s: State, w: WorkerId, wk: Worker, d: DocId)
    requires Inv(c, s) && Only(s, w, wk) && wk.HasRow() && wk.Current().doc == d && AwaitsReady(s, d)
    requires wk.phase == Failing && !Dooms(wk, d)
    ensures CanBecomeReady(c, s, d)
  {
    assert WorkerOk(s, s.workers[w]) && SnapOk(s, wk.Current());
    var t, held := CommitRetry(c, s, w, wk, true);
    CanLeadInv(c, s, t, true);
    var u := Among(t, {});
    CrashRest(c, t, {}, true);
    CanLeadInv(c, t, u, true);
    assert u.workers == map[];
    ReclaimReady(c, u, d, wk.Current().id);
    ReadyLater(c, t, u, d);
    ReadyLater(c, s, t, d);
  }

  lemma WakeHere(c: Config, s: State, w: WorkerId, wk: Worker, d: DocId)
    requires Inv(c, s) && Only(s, w, wk) && CallsOk(s, wk) && wk.HasRow() && wk.Current().doc == d
    requires AwaitsReady(s, d) && !Dooms(wk, d)
    ensures CanBecomeReady(c, s, d)
  {
    match wk.phase
    case Calling(_) => PublishReady(c, s, w, wk, d);
    case AtCount => CheckReady(c, s, w, wk, d);
    case AtMark => CheckReady(c, s, w, wk, d);
    case Failing => RetryReady(c, s, w, wk, d);
  }

  /** Past a row of another document. */
  lemma PassKeeps(c: Config, s: State, w: WorkerId, wk: Worker, d: DocId) returns (t: State, held: set<RowId>)
    requires Inv(c, s) && Only(s, w, wk) && wk.HasRow() && wk.Current().doc != d && AwaitsReady(s, d)
    ensures CanLead(c, s, t, true) && Inv(c, t) && Only(t, w, wk.Advance(held)) && AwaitsReady(t, d)
  {
    assert WorkerOk(s, s.workers[w]) && SnapOk(s, wk.Current());
    t, held := PassRow(c, s, w, wk, true);
    CanLeadInv(c, s, t, true);
    forall k | 0 <= k < |t.rows| && t.rows[k].doc == d
      ensures t.rows[k].status == PUBLISHED
    {
      PassedDoc(c, s, t, k);
      assert k != wk.Current().id;
    }
  }

  lemma PassedDoc(c: Config, s: State, t: State, k: RowId)
    requires CanLead(c, s, t, true) && k < |s.rows|
    ensures k < |t.rows| && t.rows[k].doc == s.rows[k].doc
  {
    var es :| Runs(c, s, es, t) && Within(es, true);
    RunKeepsDoc(c, s, es, t, k);
  }

  lemma {:induction false} RunKeepsDoc(c: Config, s: State, es: seq<Event>, t: State, k: RowId)
    requires Runs(c, s, es, t) && k < |s.rows|
    ensures k < |t.rows| && t.rows[k].doc == s.rows[k].doc
    decreases |es|
  {
    if es != [] {
      StepExtends(c, s, es[0]);
      RunKeepsDoc(c, Apply(c, s, es[0]), es[1..], t, k);
    }
  }

  lemma {:induction false} WakeAlone(c: Config, s: State, w: WorkerId, wk: Worker, d: DocId)
    requires Inv(c, s) && Only(s, w, wk) && CallsOk(s, wk) && HasDoc(wk, d)
    requires AwaitsReady(s, d) && !Dooms(wk, d)
    ensures CanBecomeReady(c, s, d)
    decreases |wk.batch| - wk.cursor
  {
    if wk.Current().doc == d {
      WakeHere(c, s, w, wk, d);
    } else {
      var t, held := PassKeeps(c, s, w, wk, d);
      WakeAlone(c, t, w, wk.Advance(held), d);
      ReadyLater(c, s, t, d);
    }
  }

  /** A worker that has a row of `d` and does not doom it is enough. */
  lemma OneWakes(c: Config, s: State, w: WorkerId, d: DocId)
    requires Inv(c, s) && w in s.workers && CallsOk(s, s.workers[w]) && HasDoc(s.workers[w], d)
    requires AwaitsReady(s, d) && !Dooms(s.workers[w], d)
    ensures CanBecomeReady(c, s, d)
  {
    var t := Among(s, {w});
    CrashRest(c, s, {w}, true);
    CanLeadInv(c, s, t, true);
    assert Only(t, w, s.workers[w]);
    WakeAlone(c, t, w, s.workers[w], d);
    ReadyLater(c, s, t, d);
  }

  // ---- No row dead, and one open ----

  predicate IsReady(t: State, d: DocId) {
    d in t.docs && t.docs[d].status == Ready
  }

  /** Some row of `d` is not published yet. */
  predicate Waits(s: State, d: DocId) {
    d in s.docs && s.docs[d].status == Processing && !AllPublished(s.rows, d)
  }

  ghost predicate NoneDead(s: State, d: DocId) {
    forall k :: 0 <= k < |s.rows| && s.rows[k].doc == d ==> s.rows[k].status != DEAD
  }

  function OpenRows(s: State, d: DocId): set<RowId> {
    set k | 0 <= k < |s.rows| && s.rows[k].doc == d && s.rows[k].status == PENDING
  }

  /** The rows of a document that is not being deleted are its chunks. */
  lemma RowIsChunk(s: State, r: RowId)
    requires Tables(s) && r < |s.rows| && s.rows[r].doc in s.docs && s.docs[s.rows[r].doc].status != Deleting
    ensures s.rows[r].op.UpsertChunk? && s.docs[s.rows[r].doc].chunkCount > 0
  {
    assert RowOk(s, r);
  }

  lemma DeliverOpen(c: Config, s: State, d: DocId, r: RowId) returns (t: State)
    requires Inv(c, s) && s.workers == map[] && r in OpenRows(s, d) && d in s.docs && s.docs[d].status == Processing
    ensures CanLead(c, s, t, true) && t.workers == map[] && t.docs == s.docs
    ensures t.rows == s.rows[r := s.rows[r].(status := PUBLISHED)]
  {
    RowIsChunk(s, r);
    var wk := ClaimAlone(c, s, r, true);
    var u := s.(workers := map[0 := wk]);
    assert CallsOk(u, wk) && Only(u, 0, wk);
    var v, held := PublishOn(c, u, 0, wk, true);
    t := Among(v, {});
    CrashRest(c, v, {}, true);
    CanLeadTrans(c, s, u, v, true);
    CanLeadTrans(c, s, v, t, true);
    assert t.workers == map[];
  }

  lemma {:induction false} OpenReady(c: Config, s: State, d: DocId, r: RowId)
    requires Inv(c, s) && s.workers == map[] && d in s.docs && s.docs[d].status == Processing
    requires NoneDead(s, d) && r in OpenRows(s, d)
    ensures CanBecomeReady(c, s, d)
    decreases |OpenRows(s, d)|
  {
    RowIsChunk(s, r);
    if k :| k in OpenRows(s, d) - {r} {
      var t := DeliverOpen(c, s, d, r);
      CanLeadInv(c, s, t, true);
      assert OpenRows(t, d) == OpenRows(s, d) - {r};
      OpenReady(c, t, d, k);
      ReadyLater(c, s, t, d);
    } else {
      forall k | 0 <= k < |s.rows| && s.rows[k].doc == d && k != r
        ensures s.rows[k].status == PUBLISHED
      {
        assert k !in OpenRows(s, d) - {r};
      }
      ReclaimReady(c, s, d, r);
    }
  }

  /** With no row dead it is enough that every worker crashes: the open rows are claimed again. */
  lemma AliveReady(c: Config, s: State, d: DocId)
    requires Inv(c, s) && Waits(s, d) && NoneDead(s, d)
    ensures CanBecomeReady(c, s, d)
  {
    var t := Among(s, {});
    CrashRest(c, s, {}, true);
    CanLeadInv(c, s, t, true);
    assert t.workers == map[];
    var r :| 0 <= r < |s.rows| && s.rows[r].doc == d && s.rows[r].status != PUBLISHED;
    assert r in OpenRows(t, d);
    OpenReady(c, t, d, r);
    ReadyLater(c, s, t, d);
  }

  // ---- Per-row commits: the walk ----

  /** What stays: the document waits, and no row of it has become dead. */
  ghost predicate Holding(s: State, t: State, d: DocId) {
    && |t.rows| == |s.rows| && t.docs == s.docs
    && (forall k :: 0 <= k < |s.rows| ==> t.rows[k].doc == s.rows[k].doc && t.rows[k].op == s.rows[k].op)
    && (forall k :: 0 <= k < |s.rows| && s.rows[k].doc == d && t.rows[k].status == DEAD ==> s.rows[k].status == DEAD)
    && !AllPublished(t.rows, d)
  }

  lemma HoldingTrans(s: State, t: State, u: State, d: DocId)
    requires Holding(s, t, d) && Holding(t, u, d)
    ensures Holding(s, u, d)
  {
  }

  predicate NotDead(t: State, r: RowId) {
    r < |t.rows| && t.rows[r].status != DEAD
  }

  /** A row of another document is failed, or one of `d` that has retries left. */
  lemma WalkOff(c: Config, s: State, w: WorkerId, wk: Worker, d: DocId) returns (t: State)
    requires Inv(c, s) && Unlocked(s) && w in s.workers && s.workers[w] == wk && wk.HasRow() && Waits(s, d)
    requires wk.Current().doc == d ==> wk.Current().retry + 1 < MAX_RETRIES
    ensures CanLead(c, s, t, true) && Holding(s, t, d)
    ensures t.workers == s.workers[w := AtIndex(wk, wk.cursor + 1)]
    ensures wk.Current().doc == d ==> NotDead(t, wk.Current().id)
  {
    assert WorkerOk(s, wk) && SnapOk(s, wk.Current());
    t := WalkFail(c, s, w);
    if wk.Current().doc == d {
      assert t.rows[wk.Current().id].status == PENDING && t.rows[wk.Current().id].doc == d;
    } else {
      var k :| 0 <= k < |s.rows| && s.rows[k].doc == d && s.rows[k].status != PUBLISHED;
      assert t.rows[k] == s.rows[k];
    }
  }

  /** The check of a row of `d`. */
  lemma WalkCheck(c: Config, s: State, w: WorkerId, wk: Worker, d: DocId) returns (t: State)
    requires w in s.workers && s.workers[w] == wk && wk.HasRow() && wk.held == {} && Checking(wk)
    requires wk.Current().doc == d && wk.Current().id < |s.rows|
    requires d in s.docs && s.docs[d].status == Processing
    ensures CanLead(c, s, t, true)
    ensures || IsReady(t, d)
            || (!AllPublished(s.rows, d) && t == s.(workers := s.workers[w := AtIndex(wk, wk.cursor + 1)]))
  {
    if wk.phase == AtMark {
      t := Apply(c, s, Mark(w));
      CanLeadOne(c, s, Mark(w), true);
    } else {
      var u := Apply(c, s, Count(w));
      CanLeadOne(c, s, Count(w), true);
      if AllPublished(s.rows, d) {
        t := Apply(c, u, Mark(w));
        CanLeadOne(c, u, Mark(w), true);
        CanLeadTrans(c, s, u, t, true);
      } else {
        t := u;
        assert t.workers[w] == AtIndex(wk, wk.cursor + 1);
      }
    }
  }

  /** A row of `d` is published: the document is ready then, or a row of it is still not published. */
  lemma WalkOwn(c: Config, s: State, w: WorkerId, wk: Worker, d: DocId) returns (t: State)
    requires Inv(c, s) && Unlocked(s) && w in s.workers && s.workers[w] == wk && wk.HasRow() && Waits(s, d)
    requires wk.phase.Calling? && CallsOk(s, wk) && wk.Current().doc == d
    ensures CanLead(c, s, t, true)
    ensures || IsReady(t, d)
            || (&& Holding(s, t, d) && NotDead(t, wk.Current().id)
                && t.workers == s.workers[w := AtIndex(wk, wk.cursor + 1)])
  {
    assert WorkerOk(s, wk) && SnapOk(s, wk.Current());
    RowIsChunk(s, wk.Current().id);
    var u := WalkPublish(c, s, w, wk);
    t := WalkCheck(c, u, w, wk.(phase := AtCount, held := {}), d);
    CanLeadTrans(c, s, u, t, true);
  }

  /** One row, wherever the worker stands on it. */
  lemma WalkRow(c: Config, s: State, w: WorkerId, wk: Worker, d: DocId) returns (t: State)
    requires Inv(c, s) && Unlocked(s) && w in s.workers && s.workers[w] == wk && wk.HasRow() && Waits(s, d)
    requires CallsOk(s, wk) && !Dooms(wk, d)
    ensures CanLead(c, s, t, true)
    ensures || IsReady(t, d)
            || (&& Holding(s, t, d) && t.workers == s.workers[w := AtIndex(wk, wk.cursor + 1)]
                && (wk.Current().doc == d && !Spares(wk, wk.cursor, DEAD, true) ==> NotDead(t, wk.Current().id)))
  {
    assert WorkerOk(s, wk) && SnapOk(s, wk.Current());
    if wk.Current().doc == d && wk.phase.Calling? {
      t := WalkOwn(c, s, w, wk, d);
    } else if wk.Current().doc == d && wk.Current().retry + 1 == MAX_RETRIES {
      t := WalkCheck(c, s, w, wk, d);
    } else {
      t := WalkOff(c, s, w, wk, d);
    }
  }

  /** Every row of `d` that the worker can revive is not dead any more. */
  predicate Passed(t: State, wk: Worker, d: DocId) {
    forall j :: wk.cursor <= j < |wk.batch| && wk.batch[j].doc == d && !Spares(wk, j, DEAD, true) ==>
      NotDead(t, wk.batch[j].id)
  }

  lemma PassedOn(s: State, t: State, wk: Worker, d: DocId)
    requires Passed(s, wk, d) && Holding(s, t, d)
    requires forall j :: 0 <= j < |wk.batch| ==> SnapOk(s, wk.batch[j])
    ensures Passed(t, wk, d)
  {
    forall j | wk.cursor <= j < |wk.batch| && wk.batch[j].doc == d && !Spares(wk, j, DEAD, true)
      ensures NotDead(t, wk.batch[j].id)
    {
      assert SnapOk(s, wk.batch[j]) && NotDead(s, wk.batch[j].id);
    }
  }

  lemma PassedMore(s: State, t: State, wk: Worker, d: DocId)
    requires wk.HasRow() && SnapOk(s, wk.Current()) && Holding(s, t, d)
    requires wk.Current().doc == d && !Spares(wk, wk.cursor, DEAD, true) ==> NotDead(s, wk.Current().id)
    requires Passed(t, AtIndex(wk, wk.cursor + 1), d)
    ensures Passed(t, wk, d)
  {
    forall j | wk.cursor <= j < |wk.batch| && wk.batch[j].doc == d && !Spares(wk, j, DEAD, true)
      ensures NotDead(t, wk.batch[j].id)
    {
      if j > wk.cursor {
        assert !Spares(AtIndex(wk, wk.cursor + 1), j, DEAD, true);
      }
    }
  }

  lemma WalkBatch(c: Config, s: State, w: WorkerId, wk: Worker, d: DocId) returns (t: State)
    requires Inv(c, s) && Unlocked(s) && w in s.workers && s.workers[w] == wk && Waits(s, d)
    requires CallsOk(s, wk) && !Dooms(wk, d)
    ensures CanLead(c, s, t, true)
    ensures || IsReady(t, d)
            || (&& Holding(s, t, d) && Passed(t, wk, d)
                && t.workers == s.workers[w := AtIndex(wk, |wk.batch|)])
    decreases |wk.batch| - wk.cursor
  {
    assert WorkerOk(s, wk);
    if !wk.HasRow() {
      t := s;
      CanLeadNone(c, s, true);
      assert AtIndex(wk, |wk.batch|) == wk;
    } else {
      var u := WalkRow(c, s, w, wk, d);
      t := u;
      if !IsReady(u, d) {
        CanLeadInv(c, s, u, true);
        t := WalkBatch(c, u, w, AtIndex(wk, wk.cursor + 1), d);
        CanLeadTrans(c, s, u, t, true);
        if !IsReady(t, d) {
          assert WorkerOk(u, u.workers[w]) && SnapOk(u, wk.Current());
          HoldingTrans(s, u, t, d);
          PassedMore(u, t, wk, d);
        }
      }
    }
  }

  lemma {:induction false} WalkAll(c: Config, s: State, todo: set<WorkerId>, d: DocId) returns (t: State)
    requires Inv(c, s) && Unlocked(s) && Waits(s, d) && todo <= s.workers.Keys
    requires forall w :: w in todo ==> CallsOk(s, s.workers[w]) && !Dooms(s.workers[w], d)
    ensures CanLead(c, s, t, true)
    ensures IsReady(t, d) || (Holding(s, t, d) && forall w :: w in todo ==> Passed(t, s.workers[w], d))
    decreases |todo|
  {
    if w :| w in todo {
      var u := WalkBatch(c, s, w, s.workers[w], d);
      t := u;
      if !IsReady(u, d) {
        CanLeadInv(c, s, u, true);
        t := WalkAll(c, u, todo - {w}, d);
        CanLeadTrans(c, s, u, t, true);
        if !IsReady(t, d) {
          WalkAllJoin(c, s, u, t, todo, w, d);
        }
      }
    } else {
      t := s;
      CanLeadNone(c, s, true);
    }
  }

  lemma WalkAllJoin(c: Config, s: State, u: State, t: State, todo: set<WorkerId>, w: WorkerId, d: DocId)
    requires Inv(c, s) && Inv(c, u) && w in todo && forall v :: v in todo ==> v in s.workers
    requires Holding(s, u, d) && Holding(u, t, d) && Passed(u, s.workers[w], d)
    requires u.workers == s.workers[w := AtIndex(s.workers[w], |s.workers[w].batch|)]
    requires forall v :: v in todo - {w} ==> Passed(t, u.workers[v], d)
    ensures Holding(s, t, d) && forall v :: v in todo ==> Passed(t, s.workers[v], d)
  {
    HoldingTrans(s, u, t, d);
    assert WorkerOk(u, u.workers[w]) && u.workers[w].batch == s.workers[w].batch;
    PassedOn(u, t, s.workers[w], d);
    forall v | v in todo
      ensures Passed(t, s.workers[v], d)
    {
      if v != w {
        assert v in todo - {w} && u.workers[v] == s.workers[v];
      }
    }
  }

  // ---- Per-row commits: the doomed rows die first ----

  /** Each of `todo` has made its row dead and gone on. */
  ghost predicate Committed(s: State, t: State, todo: set<WorkerId>) {
    && t.docs == s.docs && |t.rows| == |s.rows| && t.workers.Keys == s.workers.Keys
    && (forall w :: w in todo && w in s.workers ==> t.workers[w] == AtIndex(s.workers[w], s.workers[w].cursor + 1))
    && (forall w :: w in s.workers && w !in todo ==> t.workers[w] == s.workers[w])
    && (forall k :: 0 <= k < |s.rows| ==> t.rows[k].doc == s.rows[k].doc)
    && (forall k :: 0 <= k < |s.rows| ==>
          t.rows[k] == s.rows[k]
          || (t.rows[k].status == DEAD
              && exists w :: w in todo && w in s.workers && s.workers[w].HasRow() && s.workers[w].Current().id == k))
    && (forall w :: w in todo && w in s.workers && s.workers[w].HasRow() ==>
          s.workers[w].Current().id < |t.rows| && t.rows[s.workers[w].Current().id].status == DEAD)
  }

  lemma DoomCommit(c: Config, s: State, w: WorkerId, d: DocId)
    requires Inv(c, s) && Unlocked(s) && w in s.workers && Dooms(s.workers[w], d)
    ensures Busy(s, w) && CanLead(c, s, Failed(c, s, w), true) && Committed(s, Failed(c, s, w), {w})
  {
    var wk := s.workers[w];
    assert WorkerOk(s, wk) && SnapOk(s, wk.Current());
    UnlockedFree(s, w, wk.Current().id);
    CommitFailure(c, s, w);
    LeadsCan(c, s, Failed(c, s, w));
  }

  lemma CommittedJoin(s: State, u: State, t: State, todo: set<WorkerId>, w: WorkerId)
    requires w in todo && todo <= s.workers.Keys && s.workers[w].HasRow()
    requires Committed(s, u, {w}) && Committed(u, t, todo - {w})
    ensures Committed(s, t, todo)
  {
    forall v | v in todo && v != w
      ensures u.workers[v] == s.workers[v] && v in todo - {w}
    {
    }
    var r := s.workers[w].Current().id;
    assert u.rows[r].status == DEAD;
    assert t.rows[r] == u.rows[r] || t.rows[r].status == DEAD;
  }

  lemma {:induction false} CommitAll(c: Config, s: State, todo: set<WorkerId>, d: DocId) returns (t: State)
    requires Inv(c, s) && Unlocked(s) && todo <= s.workers.Keys
    requires forall w :: w in todo ==> Dooms(s.workers[w], d)
    ensures CanLead(c, s, t, true) && Committed(s, t, todo)
    decreases |todo|
  {
    if w :| w in todo {
      DoomCommit(c, s, w, d);
      var u := Failed(c, s, w);
      CanLeadInv(c, s, u, true);
      assert forall v :: v in todo - {w} ==> u.workers[v] == s.workers[v];
      t := CommitAll(c, u, todo - {w}, d);
      CanLeadTrans(c, s, u, t, true);
      CommittedJoin(s, u, t, todo, w);
    } else {
      t := s;
      CanLeadNone(c, s, true);
    }
  }

  // ---- Per-row commits: every row can be revived ----

  ghost predicate Saved(s: State, r: RowId) {
    Revives(s, s.workers.Keys, r)
  }

  /** `t` is `s` with rows of other documents and with new workers between two rows. */
  ghost predicate Widened(s: State, t: State, d: DocId) {
    && Unlocked(t) && d in s.docs && d in t.docs && t.docs[d] == s.docs[d] && s.docs.Keys <= t.docs.Keys
    && |s.rows| <= |t.rows| && (forall k :: 0 <= k < |s.rows| ==> t.rows[k] == s.rows[k])
    && (forall k :: |s.rows| <= k < |t.rows| ==> t.rows[k].doc != d)
    && (forall w :: w in s.workers ==> w in t.workers && t.workers[w] == s.workers[w])
    && (forall w :: w in t.workers && w !in s.workers ==> t.workers[w].phase == Calling(0))
  }

  lemma SavedStill(s: State, t: State, d: DocId, r: RowId)
    requires Widened(s, t, d) && Saved(s, r)
    ensures Saved(t, r)
  {
    var w, j: nat :| w in s.workers && Has(s.workers[w], j, r) && !Spares(s.workers[w], j, DEAD, true);
    assert w in t.workers && Has(t.workers[w], j, r);
  }

  lemma WidenOne(c: Config, s: State, d: DocId, r: RowId) returns (t: State)
    requires c.locks == PerRowCommit && Unlocked(s) && d in s.docs && r < |s.rows| && s.rows[r].status == PENDING
    ensures CanLead(c, s, t, true) && Widened(s, t, d) && Saved(t, r)
  {
    var v;
    t, v := PutAhead(c, s, r);
    assert Has(t.workers[v], 1, r) && !Spares(t.workers[v], 1, DEAD, true);
  }

  lemma WidenedTrans(s: State, t: State, u: State, d: DocId)
    requires Widened(s, t, d) && Widened(t, u, d)
    ensures Widened(s, u, d)
  {
  }

  lemma {:induction false} SaveOpen(c: Config, s: State, d: DocId, n: nat) returns (t: State)
    requires c.locks == PerRowCommit && Unlocked(s) && d in s.docs && n <= |s.rows|
    ensures CanLead(c, s, t, true) && Widened(s, t, d)
    ensures forall k :: 0 <= k < n && s.rows[k].doc == d && s.rows[k].status == PENDING ==> Saved(t, k)
  {
    if n == 0 {
      t := s;
      CanLeadNone(c, s, true);
    } else {
      t := SaveOpen(c, s, d, n - 1);
      if s.rows[n - 1].doc == d && s.rows[n - 1].status == PENDING {
        var u := t;
        t := WidenOne(c, u, d, n - 1);
        CanLeadTrans(c, s, u, t, true);
        WidenedTrans(s, u, t, d);
        forall k | 0 <= k < n && s.rows[k].doc == d && s.rows[k].status == PENDING
          ensures Saved(t, k)
        {
          if k < n - 1 {
            SavedStill(u, t, d, k);
          }
        }
      }
    }
  }

  function Doomers(s: State, d: DocId): set<WorkerId> {
    set w | w in s.workers && Dooms(s.workers[w], d)
  }

  /** Every row of `d` that is not published, or that a worker makes dead, can be revived. */
  ghost predicate AllSaved(s: State, d: DocId) {
    forall k :: 0 <= k < |s.rows| && s.rows[k].doc == d ==>
      (s.rows[k].status != PUBLISHED || Doomed(s, d, s.workers.Keys, k) ==> Saved(s, k))
  }

  lemma WidenedDoomed(s: State, t: State, d: DocId, k: RowId)
    requires Widened(s, t, d) && k < |s.rows| && Doomed(t, d, t.workers.Keys, k)
    ensures Doomed(s, d, s.workers.Keys, k)
  {
    if s.rows[k].status == PUBLISHED {
      var w :| w in t.workers && Dooms(t.workers[w], d) && t.workers[w].Current().id == k;
      assert w in s.workers;
    }
  }

  lemma SaveAll(c: Config, s: State, d: DocId) returns (t: State)
    requires c.locks == PerRowCommit && Unlocked(s) && d in s.docs
    requires forall k :: 0 <= k < |s.rows| && s.rows[k].doc == d && Doomed(s, d, s.workers.Keys, k) ==> Saved(s, k)
    ensures CanLead(c, s, t, true) && Widened(s, t, d) && AllSaved(t, d)
  {
    t := SaveOpen(c, s, d, |s.rows|);
    forall k | 0 <= k < |t.rows| && t.rows[k].doc == d
               && (t.rows[k].status != PUBLISHED || Doomed(t, d, t.workers.Keys, k))
      ensures Saved(t, k)
    {
      if t.rows[k].status != PENDING {
        WidenedDoomed(s, t, d, k);
        SavedStill(s, t, d, k);
      }
    }
  }

  /** Whoever could revive the row still can, after the doomed rows have died. */
  lemma SavedCommitted(s: State, t: State, d: DocId, r: RowId)
    requires Committed(s, t, Doomers(s, d)) && Saved(s, r)
    ensures Saved(t, r)
  {
    var w, j: nat :| w in s.workers && Has(s.workers[w], j, r) && !Spares(s.workers[w], j, DEAD, true);
    assert w in t.workers && Has(t.workers[w], j, r);
  }

  lemma DeadSaved(s: State, t: State, d: DocId, r: RowId)
    requires Workers(s) && AllSaved(s, d) && Committed(s, t, Doomers(s, d))
    requires r < |t.rows| && t.rows[r].doc == d && t.rows[r].status == DEAD
    ensures Saved(t, r)
  {
    if t.rows[r] != s.rows[r] {
      var w :| w in Doomers(s, d) && s.workers[w].HasRow() && s.workers[w].Current().id == r;
      assert Dooms(s.workers[w], d);
    }
    SavedCommitted(s, t, d, r);
  }

  lemma PassedRow(s: State, t: State, d: DocId, r: RowId)
    requires Workers(s) && r < |s.rows| && s.rows[r].doc == d && Saved(s, r)
    requires forall w :: w in s.workers ==> Passed(t, s.workers[w], d)
    ensures NotDead(t, r)
  {
    var w, j: nat :| w in s.workers && Has(s.workers[w], j, r) && !Spares(s.workers[w], j, DEAD, true);
    assert WorkerOk(s, s.workers[w]) && SnapOk(s, s.workers[w].batch[j]);
    assert Passed(t, s.workers[w], d);
  }

  /** The doomed rows have died, and every dead row can be revived: the walk revives them all. */
  lemma WalkReady(c: Config, s: State, d: DocId)
    requires Inv(c, s) && Unlocked(s) && Waits(s, d)
    requires forall w :: w in s.workers ==> CallsOk(s, s.workers[w]) && !Dooms(s.workers[w], d)
    requires forall r :: 0 <= r < |s.rows| && s.rows[r].doc == d && s.rows[r].status == DEAD ==> Saved(s, r)
    ensures CanBecomeReady(c, s, d)
  {
    var t := WalkAll(c, s, s.workers.Keys, d);
    if !IsReady(t, d) {
      forall r | 0 <= r < |t.rows| && t.rows[r].doc == d
        ensures t.rows[r].status != DEAD
      {
        if s.rows[r].status == DEAD {
          PassedRow(s, t, d, r);
        }
      }
      CanLeadInv(c, s, t, true);
      AliveReady(c, t, d);
      ReadyLater(c, s, t, d);
    }
  }

  lemma NoDoomers(s: State, t: State, d: DocId)
    requires Committed(s, t, Doomers(s, d)) && Unlocked(s)
    ensures Unlocked(t) && forall w :: w in t.workers ==> !Dooms(t.workers[w], d)
  {
    forall w | w in t.workers
      ensures t.workers[w].held == {} && !Dooms(t.workers[w], d)
    {
      assert w in s.workers;
    }
  }

  lemma CommittedWaits(s: State, t: State, d: DocId)
    requires Workers(s) && d in s.docs && s.docs[d].status == Processing && Committed(s, t, Doomers(s, d))
    requires !AllPublished(s.rows, d) || Doomers(s, d) != {}
    ensures Waits(t, d)
  {
    if w :| w in Doomers(s, d) {
      assert WorkerOk(s, s.workers[w]) && SnapOk(s, s.workers[w].Current());
      assert t.rows[s.workers[w].Current().id].doc == d;
    } else {
      var k :| 0 <= k < |s.rows| && s.rows[k].doc == d && s.rows[k].status != PUBLISHED;
      assert t.rows[k] == s.rows[k];
    }
  }

  lemma SavedReady(c: Config, s: State, d: DocId)
    requires Inv(c, s) && Unlocked(s) && AllSaved(s, d)
    requires forall w :: w in s.workers ==> CallsOk(s, s.workers[w])
    requires d in s.docs && s.docs[d].status == Processing && (!AllPublished(s.rows, d) || Doomers(s, d) != {})
    ensures CanBecomeReady(c, s, d)
  {
    var t := CommitAll(c, s, Doomers(s, d), d);
    CanLeadInv(c, s, t, true);
    CanLeadCalls(c, s, t);
    NoDoomers(s, t, d);
    CommittedWaits(s, t, d);
    forall r | 0 <= r < |t.rows| && t.rows[r].doc == d && t.rows[r].status == DEAD
      ensures Saved(t, r)
    {
      DeadSaved(s, t, d, r);
    }
    WalkReady(c, t, d);
    ReadyLater(c, s, t, d);
  }

  lemma WidenedWaits(s: State, t: State, d: DocId)
    requires Widened(s, t, d) && (!AllPublished(s.rows, d) || Doomers(s, d) != {})
    ensures !AllPublished(t.rows, d) || Doomers(t, d) != {}
  {
    if w :| w in Doomers(s, d) {
      assert w in Doomers(t, d);
    } else {
      var k :| 0 <= k < |s.rows| && s.rows[k].doc == d && s.rows[k].status != PUBLISHED;
      assert t.rows[k].doc == d && t.rows[k].status != PUBLISHED;
    }
  }

  lemma UnlockedReady(c: Config, s: State, d: DocId)
    requires c.locks == PerRowCommit && Inv(c, s) && Unlocked(s)
    requires forall w :: w in s.workers ==> CallsOk(s, s.workers[w])
    requires d in s.docs && s.docs[d].status == Processing && (!AllPublished(s.rows, d) || Doomers(s, d) != {})
    requires forall k :: 0 <= k < |s.rows| && s.rows[k].doc == d && Doomed(s, d, s.workers.Keys, k) ==> Saved(s, k)
    ensures CanBecomeReady(c, s, d)
  {
    var t := SaveAll(c, s, d);
    CanLeadInv(c, s, t, true);
    CanLeadCalls(c, s, t);
    WidenedWaits(s, t, d);
    SavedReady(c, t, d);
    ReadyLater(c, s, t, d);
  }

  // ---- Per-row commits: those of the team that hold no lock ----

  function Free(s: State, team: set<WorkerId>): set<WorkerId> {
    set w | w in team && w in s.workers && s.workers[w].held == {}
  }

  lemma FreeRevives(s: State, team: set<WorkerId>, r: RowId)
    requires AllHoldOpen(s) && r < |s.rows| && s.rows[r].status != PENDING && Revives(s, team, r)
    ensures Saved(Among(s, Free(s, team)), r)
  {
    var w, j: nat :| w in team && w in s.workers && Has(s.workers[w], j, r) && !Spares(s.workers[w], j, DEAD, true);
    ClosedUnlocked(s, s.workers[w], j);
    assert w in Among(s, Free(s, team)).workers && Has(Among(s, Free(s, team)).workers[w], j, r);
  }

  lemma FreeDoomed(s: State, d: DocId, team: set<WorkerId>, r: RowId)
    requires AllHoldOpen(s) && Team(s, d, team) && r < |s.rows| && s.rows[r].doc == d
    requires var t := Among(s, Free(s, team)); Doomed(t, d, t.workers.Keys, r)
    ensures Saved(Among(s, Free(s, team)), r)
  {
    assert Doomed(s, d, team, r);
    FreeRevives(s, team, r);
  }

  lemma TeamMakesReady(c: Config, s: State, d: DocId, team: set<WorkerId>)
    requires c.locks == PerRowCommit && Inv(c, s) && AllHoldOpen(s)
    requires forall w :: w in s.workers ==> CallsOk(s, s.workers[w])
    requires d in s.docs && s.docs[d].status == Processing && Team(s, d, team)
    requires !AllPublished(s.rows, d) || Doomers(Among(s, Free(s, team)), d) != {}
    ensures CanBecomeReady(c, s, d)
  {
    var t := Among(s, Free(s, team));
    CrashRest(c, s, Free(s, team), true);
    CanLeadInv(c, s, t, true);
    CanLeadCalls(c, s, t);
    forall k | 0 <= k < |t.rows| && t.rows[k].doc == d && Doomed(t, d, t.workers.Keys, k)
      ensures Saved(t, k)
    {
      FreeDoomed(s, d, team, k);
    }
    UnlockedReady(c, t, d);
    ReadyLater(c, s, t, d);
  }

  /** A worker of the team that has a row of a fully published document holds no lock. */
  lemma HolderWakes(c: Config, s: State, d: DocId, team: set<WorkerId>, w: WorkerId)
    requires Inv(c, s) && AllHoldOpen(s)
    requires forall w :: w in s.workers ==> CallsOk(s, s.workers[w])
    requires d in s.docs && s.docs[d].status == Processing && AllPublished(s.rows, d)
    requires w in team && w in s.workers && HasDoc(s.workers[w], d) && Doomers(Among(s, Free(s, team)), d) == {}
    ensures CanBecomeReady(c, s, d)
  {
    var wk := s.workers[w];
    var j :| wk.cursor <= j < |wk.batch| && wk.batch[j].doc == d;
    assert WorkerOk(s, wk) && SnapOk(s, wk.batch[j]);
    ClosedUnlocked(s, wk, j);
    RowIsChunk(s, wk.batch[j].id);
    assert w !in Doomers(Among(s, Free(s, team)), d);
    OneWakes(c, s, w, d);
  }

  lemma PerRowReady(c: Config, s: State, d: DocId, team: set<WorkerId>)
    requires c.locks == PerRowCommit && Inv(c, s) && AllHoldOpen(s)
    requires forall w :: w in s.workers ==> CallsOk(s, s.workers[w])
    requires d in s.docs && s.docs[d].status == Processing && Team(s, d, team)
    ensures CanBecomeReady(c, s, d)
  {
    if AllPublished(s.rows, d) && Doomers(Among(s, Free(s, team)), d) == {} {
      var w :| w in team && HasDoc(s.workers[w], d);
      HolderWakes(c, s, d, team, w);
    } else {
      TeamMakesReady(c, s, d, team);
    }
  }

  // ---- Batch-long locks ----

  /** With batch-long locks nobody revives a row, and a row is in one place of one batch. */
  lemma NobodyRevives(s: State, d: DocId, team: set<WorkerId>, r: RowId)
    requires OutboxRetry.LockInv(s, false) && r < |s.rows| && Revives(s, team, r)
    ensures !Doomed(s, d, team, r)
  {
    var v, j: nat :| v in team && v in s.workers && Has(s.workers[v], j, r) && !Spares(s.workers[v], j, DEAD, true);
    assert OutboxRetry.OwnsBatch(s, s.workers[v], false);
    assert OutboxRetry.RowMatches(s, s.workers[v].batch[j], j == s.workers[v].cursor, s.workers[v].phase, false);
    if w :| w in team && w in s.workers && Dooms(s.workers[w], d) && s.workers[w].Current().id == r {
      OnePlace(s, w, v, j);
    }
  }

  lemma OnePlace(s: State, w: WorkerId, v: WorkerId, j: nat)
    requires OutboxRetry.LockInv(s, false) && w in s.workers && v in s.workers && s.workers[w].HasRow()
    requires Has(s.workers[v], j, s.workers[w].Current().id)
    ensures v == w && j == s.workers[w].cursor
  {
    var wk, vk := s.workers[w], s.workers[v];
    assert OutboxRetry.OwnsBatch(s, wk, false) && OutboxRetry.OwnsBatch(s, vk, false);
    assert wk.batch[wk.cursor].id in wk.held && vk.batch[j].id in vk.held;
  }

  lemma LockedReady(c: Config, s: State, d: DocId, team: set<WorkerId>)
    requires Inv(c, s) && OutboxRetry.LockInv(s, false)
    requires forall w :: w in s.workers ==> CallsOk(s, s.workers[w])
    requires d in s.docs && s.docs[d].status == Processing && Team(s, d, team)
    ensures CanBecomeReady(c, s, d)
  {
    forall r | 0 <= r < |s.rows| && s.rows[r].doc == d
      ensures !Doomed(s, d, team, r)
    {
      if Doomed(s, d, team, r) {
        NobodyRevives(s, d, team, r);
      }
    }
    if AllPublished(s.rows, d) {
      var w :| w in team && HasDoc(s.workers[w], d);
      UndoomedWakes(c, s, d, team, w);
    } else {
      AliveReady(c, s, d);
    }
  }

  lemma UndoomedWakes(c: Config, s: State, d: DocId, team: set<WorkerId>, w: WorkerId)
    requires Inv(c, s)
    requires forall w :: w in s.workers ==> CallsOk(s, s.workers[w])
    requires d in s.docs && s.docs[d].status == Processing && AllPublished(s.rows, d)
    requires w in team && w in s.workers && HasDoc(s.workers[w], d)
    requires forall r :: 0 <= r < |s.rows| && s.rows[r].doc == d ==> !Doomed(s, d, team, r)
    ensures CanBecomeReady(c, s, d)
  {
    var wk := s.workers[w];
    var j :| wk.cursor <= j < |wk.batch| && wk.batch[j].doc == d;
    assert WorkerOk(s, wk) && SnapOk(s, wk.batch[j]);
    RowIsChunk(s, wk.batch[j].id);
    if Dooms(wk, d) {
      assert SnapOk(s, wk.Current()) && Doomed(s, d, team, wk.Current().id);
    }
    OneWakes(c, s, w, d);
  }

  // ---- Exactly when a document can still become ready ----

  lemma MarkingReady(c: Config, s: State, d: DocId)
    requires Inv(c, s) && d in s.docs && s.docs[d].status == Processing && Marking(s, d)
    ensures CanBecomeReady(c, s, d)
  {
    var w :| w in s.workers && s.workers[w].HasRow() && s.workers[w].Current().doc == d && s.workers[w].phase == AtMark;
    assert WorkerOk(s, s.workers[w]) && SnapOk(s, s.workers[w].Current());
    CanLeadOne(c, s, Mark(w), true);
  }

  lemma WakersMakeReady(c: Config, es: seq<Event>, s: State, d: DocId, team: set<WorkerId>)
    requires Runs(c, INIT, es, s) && Inv(c, s) && d in s.docs && s.docs[d].status == Processing && Team(s, d, team)
    ensures CanBecomeReady(c, s, d)
  {
    RunCalls(c, INIT, es, s);
    if c.locks == BatchLocks {
      OutboxRetry.RunLocks(c, INIT, es, s, false);
      LockedReady(c, s, d, team);
    } else {
      RunHolds(c, INIT, es, s);
      PerRowReady(c, s, d, team);
    }
  }

  /** A document that shows `processing` can become ready exactly when somebody is about to mark it so, or
      some workers are left that see to it: one of them has a row of it at or ahead of its cursor, or a
      row of it is open, and they can bring back every row of it that is dead, or that one of them is
      about to make dead. A crash, or a failure for the fifth time, that leaves no such workers
      leaves the document unready for good. */
  lemma CanBecomeReadyIff(c: Config, s: State, d: DocId)
    requires Reachable(c, s) && d in s.docs && s.docs[d].status == Processing
    ensures CanBecomeReady(c, s, d) <==> CanWake(s, d)
  {
    ReachableInv(c, s);
    if CanBecomeReady(c, s, d) {
      ReadyNeedsWakers(c, s, d);
    }
    if CanWake(s, d) {
      if Marking(s, d) {
        MarkingReady(c, s, d);
      } else {
        var team :| Team(s, d, team);
        var es :| Runs(c, INIT, es, s);
        WakersMakeReady(c, es, s, d, team);
      }
    }
  }

  /** Of a fully published document, where no worker is about to make one of its rows dead, that is: some
      worker has a row of it at or ahead of its cursor. */
  lemma CanBecomeReadyIffHeld(c: Config, s: State, d: DocId)
    requires Reachable(c, s) && AwaitsReady(s, d) && forall w :: w in s.workers ==> !Dooms(s.workers[w], d)
    ensures CanBecomeReady(c, s, d) <==> exists w :: w in s.workers && HasDoc(s.workers[w], d)
  {
    CanBecomeReadyIff(c, s, d);
    if w :| w in s.workers && HasDoc(s.workers[w], d) {
      assert Team(s, d, {w});
    }
  }

  /** With no worker left, that is: a row of it is open and none is dead. */
  lemma IdleReadyIff(c: Config, s: State, d: DocId)
    requires Reachable(c, s) && d in s.docs && s.docs[d].status == Processing && s.workers == map[]
    ensures CanBecomeReady(c, s, d) <==> OpenRows(s, d) != {} && NoneDead(s, d)
  {
    CanBecomeReadyIff(c, s, d);
    if OpenRows(s, d) != {} && NoneDead(s, d) {
      var r :| r in OpenRows(s, d);
      assert Team(s, d, {});
    }
    if CanWake(s, d) {
      var team :| Team(s, d, team);
      var r :| 0 <= r < |s.rows| && s.rows[r].doc == d && s.rows[r].status == PENDING;
      assert r in OpenRows(s, d);
    }
  }
}
