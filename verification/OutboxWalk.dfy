/**
Runs of several workers under per-row commits. A worker holds locks only until its first commit; one that
holds none can be walked through its batch whatever the others do.
*/
module OutboxWalk {
  import opened OutboxModel
  import opened OutboxSafety
  import opened OutboxMoves
  import opened OutboxFinal

  // ---- Who still holds locks ----

  /** A worker that still holds locks holds its whole batch, and each row is as its snapshot shows it. */
  predicate HoldsOpen(s: State, wk: Worker) {
    && (forall r :: r in wk.held ==> r < |s.rows| && s.rows[r].status == PENDING)
    && (wk.held != {} ==> forall j :: 0 <= j < |wk.batch| ==>
          wk.batch[j].id in wk.held && s.rows[wk.batch[j].id].retry == wk.batch[j].retry)
  }

  ghost predicate AllHoldOpen(s: State) {
    forall w :: w in s.workers ==> HoldsOpen(s, s.workers[w])
  }

  /** Only the holder of a lock changes the row, and then holds no lock. */
  lemma LockedStays(c: Config, s: State, e: Event, w: WorkerId, r: RowId)
    requires c.locks == PerRowCommit && Enabled(c, s, e) && w in s.workers && w in Apply(c, s, e).workers
    requires r in Apply(c, s, e).workers[w].held && r < |s.rows|
    ensures r in s.workers[w].held
    ensures r < |Apply(c, s, e).rows| && Apply(c, s, e).rows[r] == s.rows[r]
  {
  }

  lemma StepHolds(c: Config, s: State, e: Event, w: WorkerId)
    requires c.locks == PerRowCommit && Enabled(c, s, e) && w in Apply(c, s, e).workers
    requires w in s.workers ==> HoldsOpen(s, s.workers[w])
    ensures HoldsOpen(Apply(c, s, e), Apply(c, s, e).workers[w])
  {
    var t := Apply(c, s, e);
    var wk' := t.workers[w];
    if w in s.workers {
      assert wk'.batch == s.workers[w].batch && wk'.held <= s.workers[w].held;
      forall r | r in wk'.held
        ensures r < |t.rows| && t.rows[r].status == PENDING && t.rows[r] == s.rows[r]
      {
        LockedStays(c, s, e, w, r);
      }
      assert wk'.held != {} ==> wk'.held == s.workers[w].held;
    } else {
      assert e.Claim?;
    }
  }

  lemma {:induction false} RunHolds(c: Config, s: State, es: seq<Event>, t: State)
    requires c.locks == PerRowCommit && Runs(c, s, es, t) && AllHoldOpen(s)
    ensures AllHoldOpen(t)
    decreases |es|
  {
    if es != [] {
      var u := Apply(c, s, es[0]);
      forall w | w in u.workers
        ensures HoldsOpen(u, u.workers[w])
      {
        StepHolds(c, s, es[0], w);
      }
      RunHolds(c, u, es[1..], t);
    }
  }

  /** A worker that has a row which is not open holds no lock. */
  lemma ClosedUnlocked(s: State, wk: Worker, j: nat)
    requires HoldsOpen(s, wk) && j < |wk.batch| && wk.batch[j].id < |s.rows|
    requires s.rows[wk.batch[j].id].status != PENDING || s.rows[wk.batch[j].id].retry != wk.batch[j].retry
    ensures wk.held == {}
  {
  }

  predicate Unlocked(s: State) {
    forall w :: w in s.workers ==> s.workers[w].held == {}
  }

  lemma UnlockedFree(s: State, w: WorkerId, r: RowId)
    requires Unlocked(s)
    ensures !HeldByOther(s, w, r)
  {
  }

  // ---- One step of the walk ----

  /** `wk` between two rows, at index `j`. */
  function AtIndex(wk: Worker, j: nat): Worker {
    Worker(wk.batch, j, Calling(0), {})
  }

  /** The current row is failed, whatever the worker was at. */
  lemma WalkFail(c: Config, s: State, w: WorkerId) returns (t: State)
    requires Unlocked(s) && Busy(s, w)
    ensures CanLead(c, s, t, true) && t == Failed(c, s, w)
    ensures t.workers == s.workers[w := AtIndex(s.workers[w], s.workers[w].cursor + 1)]
  {
    UnlockedFree(s, w, s.workers[w].Current().id);
    if s.workers[w].phase == Failing {
      CommitFailure(c, s, w);
      t := Failed(c, s, w);
    } else {
      t := FailRow(c, s, w);
    }
    LeadsCan(c, s, t);
  }

  lemma {:induction false} FinishCalls(c: Config, s: State, w: WorkerId, wk: Worker) returns (t: State)
    requires Busy(s, w) && s.workers[w] == wk && wk.phase.Calling? && wk.phase.calls <= 2
    requires wk.Current().op.UpsertChunk?
    ensures CanLead(c, s, t, true) && t.rows == s.rows && t.docs == s.docs
    ensures t.workers == s.workers[w := wk.(phase := Calling(2))]
    decreases 2 - wk.phase.calls
  {
    if wk.phase.calls == 2 {
      t := s;
      CanLeadNone(c, s, true);
    } else {
      var u := Apply(c, s, Call(w));
      var wk' := wk.(phase := Calling(wk.phase.calls + 1));
      CanLeadOne(c, s, Call(w), true);
      t := FinishCalls(c, u, w, wk');
      CanLeadTrans(c, s, u, t, true);
    }
  }

  /** The publish commit of an upsert row, with the calls before it. */
  lemma WalkPublish(c: Config, s: State, w: WorkerId, wk: Worker) returns (t: State)
    requires Unlocked(s) && Busy(s, w) && s.workers[w] == wk && wk.phase.Calling? && wk.phase.calls <= 2
    requires wk.Current().op.UpsertChunk?
    ensures CanLead(c, s, t, true) && t.docs == s.docs
    ensures t.rows == s.rows[wk.Current().id := s.rows[wk.Current().id].(status := PUBLISHED)]
    ensures t.workers == s.workers[w := wk.(phase := AtCount, held := {})]
  {
    var u := FinishCalls(c, s, w, wk);
    UnlockedFree(u, w, wk.Current().id);
    t := Apply(c, u, Publish(w));
    CanLeadOne(c, u, Publish(w), true);
    CanLeadTrans(c, s, u, t, true);
  }

  lemma CanLeadCalls(c: Config, s: State, t: State)
    requires Inv(c, s) && CanLead(c, s, t, true) && forall w :: w in s.workers ==> CallsOk(s, s.workers[w])
    ensures forall w :: w in t.workers ==> CallsOk(t, t.workers[w])
  {
    var es :| Runs(c, s, es, t) && Within(es, true);
    RunCalls(c, s, es, t);
  }

  // ---- An open row ahead of a new worker ----

  lemma {:induction false} Unused(used: set<nat>) returns (n: nat)
    ensures forall k :: k in used ==> k < n
    decreases |used|
  {
    if k :| k in used {
      var m := Unused(used - {k});
      n := if k < m then m else k + 1;
      forall i | i in used
        ensures i < n
      {
        assert i == k || i in used - {k};
      }
    } else {
      n := 0;
    }
  }

  /** A document of one chunk is ingested. */
  lemma IngestOne(c: Config, s: State) returns (t: State, d: DocId)
    ensures d !in s.docs && CanLead(c, s, t, true)
    ensures t == s.(docs := s.docs[d := Doc(0, Processing, 1)], first := s.first[d := |s.rows|],
                    rows := s.rows + [Row(d, UpsertChunk(0, "", map[], 0), PENDING, 0)])
  {
    d := Unused(s.docs.Keys);
    t := Apply(c, s, Ingest(d, 0, map[], [""]));
    CanLeadOne(c, s, Ingest(d, 0, map[], [""]), true);
    assert FreshRows(d, 0, map[], [""]) == [Row(d, UpsertChunk(0, "", map[], 0), PENDING, 0)];
  }

  lemma ClaimTwo(c: Config, s: State, w: WorkerId, x: RowId, r: RowId) returns (t: State)
    requires Unlocked(s) && w !in s.workers && x < |s.rows| && r < |s.rows| && x != r
    requires s.rows[x].status == PENDING && s.rows[r].status == PENDING
    ensures CanLead(c, s, t, true)
    ensures t == s.(workers := s.workers[w := Worker([Snap1(s, x), Snap1(s, r)], 0, Calling(0), {x, r})])
  {
    var ids := [x, r];
    UnlockedFree(s, w, x);
    UnlockedFree(s, w, r);
    assert Enabled(c, s, Claim(w, ids));
    t := Apply(c, s, Claim(w, ids));
    assert Snapshot(s.rows, ids) == [Snap1(s, x), Snap1(s, r)];
    assert t.workers[w].held == {x, r};
    CanLeadOne(c, s, Claim(w, ids), true);
  }

  /** The first of two claimed rows is failed: that commit releases the second one too. */
  lemma DropFirst(c: Config, s: State, w: WorkerId, x: RowId, r: RowId) returns (t: State)
    requires c.locks == PerRowCommit && w in s.workers && x < |s.rows| && r < |s.rows| && s.rows[x].retry == 0
    requires s.workers[w] == Worker([Snap1(s, x), Snap1(s, r)], 0, Calling(0), {x, r})
    requires forall v :: v in s.workers && v != w ==> s.workers[v].held == {}
    ensures CanLead(c, s, t, true)
    ensures t == s.(rows := s.rows[x := s.rows[x].(retry := 1, status := PENDING)],
                    workers := s.workers[w := Worker([Snap1(s, x), Snap1(s, r)], 1, Calling(0), {})])
  {
    assert Busy(s, w) && s.workers[w].Current() == Snap1(s, x) && !HeldByOther(s, w, x);
    t := FailRow(c, s, w);
    LeadsCan(c, s, t);
  }

  /** `t` is `s` with a row of a new document and a new worker, which has `r` next. */
  ghost predicate GotAhead(s: State, t: State, v: WorkerId, r: RowId)
    requires r < |s.rows|
  {
    && v !in s.workers && v in t.workers && t.workers == s.workers[v := t.workers[v]]
    && |t.workers[v].batch| == 2 && t.workers[v] == AtIndex(t.workers[v], 1) && t.workers[v].batch[1] == Snap1(s, r)
    && t.workers[v].batch[0].id == |s.rows|
    && |t.rows| == |s.rows| + 1 && t.rows[|s.rows|].doc !in s.docs
    && (forall k :: 0 <= k < |s.rows| ==> t.rows[k] == s.rows[k])
    && (forall d :: d in s.docs ==> d in t.docs && t.docs[d] == s.docs[d])
  }

  /** A new worker claims a fresh row and `r`, and fails the fresh one: it has `r` ahead, unlocked. */
  lemma PutAhead(c: Config, s: State, r: RowId) returns (t: State, v: WorkerId)
    requires c.locks == PerRowCommit && Unlocked(s) && r < |s.rows| && s.rows[r].status == PENDING
    ensures CanLead(c, s, t, true) && Unlocked(t) && GotAhead(s, t, v, r)
  {
    v := Unused(s.workers.Keys);
    var u, d := IngestOne(c, s);
    t := PutBehind(c, u, v, |s.rows|, r);
    CanLeadTrans(c, s, u, t, true);
  }

  lemma PutBehind(c: Config, s: State, v: WorkerId, x: RowId, r: RowId) returns (t: State)
    requires c.locks == PerRowCommit && Unlocked(s) && v !in s.workers && x < |s.rows| && r < |s.rows| && x != r
    requires s.rows[x].status == PENDING && s.rows[x].retry == 0 && s.rows[r].status == PENDING
    ensures CanLead(c, s, t, true) && t.docs == s.docs
    ensures t.rows == s.rows[x := s.rows[x].(retry := 1, status := PENDING)]
    ensures t.workers == s.workers[v := Worker([Snap1(s, x), Snap1(s, r)], 1, Calling(0), {})]
  {
    var u := ClaimTwo(c, s, v, x, r);
    t := DropFirst(c, u, v, x, r);
    CanLeadTrans(c, s, u, t, true);
    assert Snap1(u, x) == Snap1(s, x) && Snap1(u, r) == Snap1(s, r);
  }
}
