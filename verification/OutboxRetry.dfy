/**
Retry accounting. The retry count of a row is the number of its failed attempts exactly as long as
no failure is committed from a stale snapshot; when claimed rows stay locked for the whole batch no
snapshot is ever stale.
*/
module OutboxRetry {
  import opened OutboxModel
  import opened OutboxSafety
  import opened OutboxFinal

  // ---- Invariant ----

  /** `strict`: no ready check has raised, so a failing worker's row is still open. */
  predicate RowMatches(s: State, snap: Snap, isCurrent: bool, phase: Phase, strict: bool) {
    && snap.id < |s.rows|
    && s.rows[snap.id].retry == snap.retry
    && (s.rows[snap.id].status == PENDING
        || (isCurrent && s.rows[snap.id].status == PUBLISHED
            && (phase == AtCount || phase == AtMark || (phase == Failing && !strict))))
  }

  ghost predicate OwnsBatch(s: State, wk: Worker, strict: bool) {
    && (forall i, j :: 0 <= i < j < |wk.batch| ==> wk.batch[i].id != wk.batch[j].id)
    && (forall j :: wk.cursor <= j < |wk.batch| ==>
          wk.batch[j].id in wk.held && RowMatches(s, wk.batch[j], j == wk.cursor, wk.phase, strict))
  }

  ghost predicate Exclusive(s: State) {
    forall v, w :: v in s.workers && w in s.workers && v != w ==> s.workers[v].held !! s.workers[w].held
  }

  ghost predicate LockInv(s: State, strict: bool) {
    && Exclusive(s)
    && forall w :: w in s.workers ==> OwnsBatch(s, s.workers[w], strict)
  }

  predicate Allowed(e: Event, strict: bool) {
    strict ==> !e.MarkFail?
  }

  // ---- One step ----

  lemma StepExclusive(c: Config, s: State, e: Event)
    requires c.locks == BatchLocks && Exclusive(s) && Enabled(c, s, e)
    ensures Exclusive(Apply(c, s, e))
  {
    var t := Apply(c, s, e);
    forall v, w | v in t.workers && w in t.workers && v != w
      ensures t.workers[v].held !! t.workers[w].held
    {
      if e.Claim? && (e.w == v || e.w == w) {
        var other := if e.w == v then w else v;
        forall id | id in t.workers[e.w].held
          ensures id !in s.workers[other].held
        {
          var i :| 0 <= i < |e.ids| && e.ids[i] == id;
          assert !HeldByOther(s, e.w, e.ids[i]);
        }
      }
    }
  }

  /** The row a step may change. */
  predicate Touches(s: State, e: Event, id: RowId) {
    (e.Publish? || e.FailCommit?) && Busy(s, e.w) && s.workers[e.w].Current().id == id
  }

  lemma StepUntouched(c: Config, s: State, e: Event, id: RowId)
    requires Enabled(c, s, e) && id < |s.rows| && !Touches(s, e, id)
    ensures Apply(c, s, e).rows[id] == s.rows[id]
  {
  }

  lemma MoverHolds(s: State, e: Event, id: RowId, strict: bool)
    requires LockInv(s, strict) && Touches(s, e, id)
    ensures id in s.workers[e.w].held
  {
    assert OwnsBatch(s, s.workers[e.w], strict);
  }

  lemma StepOwnsOther(c: Config, s: State, e: Event, w: WorkerId, strict: bool)
    requires LockInv(s, strict) && Enabled(c, s, e)
    requires w in s.workers && w in Apply(c, s, e).workers
    requires Apply(c, s, e).workers[w] == s.workers[w]
    requires (e.Publish? || e.FailCommit?) ==> e.w != w
    ensures OwnsBatch(Apply(c, s, e), Apply(c, s, e).workers[w], strict)
  {
    var t := Apply(c, s, e);
    var wk := s.workers[w];
    assert OwnsBatch(s, wk, strict);
    forall j | wk.cursor <= j < |wk.batch|
      ensures RowMatches(t, wk.batch[j], j == wk.cursor, wk.phase, strict)
    {
      assert RowMatches(s, wk.batch[j], j == wk.cursor, wk.phase, strict);
      if Touches(s, e, wk.batch[j].id) {
        MoverHolds(s, e, wk.batch[j].id, strict);
        assert false;
      }
      StepUntouched(c, s, e, wk.batch[j].id);
    }
  }

  lemma StepOwnsMover(c: Config, s: State, e: Event, strict: bool)
    requires c.locks == BatchLocks
    requires LockInv(s, strict) && Enabled(c, s, e) && Allowed(e, strict)
    requires !e.Ingest? && !e.DeleteDoc? && !e.Claim? && !e.Finish? && !e.Crash?
    ensures OwnsBatch(Apply(c, s, e), Apply(c, s, e).workers[e.w], strict)
  {
    var t := Apply(c, s, e);
    var wk, wk' := s.workers[e.w], t.workers[e.w];
    assert OwnsBatch(s, wk, strict);
    assert wk'.batch == wk.batch && wk'.held == wk.held;
    forall j | wk'.cursor <= j < |wk'.batch|
      ensures wk'.batch[j].id in wk'.held
      ensures RowMatches(t, wk'.batch[j], j == wk'.cursor, wk'.phase, strict)
    {
      assert RowMatches(s, wk.batch[j], j == wk.cursor, wk.phase, strict);
      if j != wk.cursor {
        assert wk.batch[j].id != wk.batch[wk.cursor].id;
        StepUntouched(c, s, e, wk.batch[j].id);
      }
    }
  }

  lemma StepLocks(c: Config, s: State, e: Event, strict: bool)
    requires c.locks == BatchLocks
    requires LockInv(s, strict) && Enabled(c, s, e) && Allowed(e, strict)
    ensures LockInv(Apply(c, s, e), strict)
  {
    var t := Apply(c, s, e);
    StepExclusive(c, s, e);
    forall w | w in t.workers
      ensures OwnsBatch(t, t.workers[w], strict)
    {
      if e.Claim? && e.w == w {
        var wk := t.workers[w];
        forall j | 0 <= j < |wk.batch|
          ensures wk.batch[j].id in wk.held && RowMatches(t, wk.batch[j], j == 0, Calling(0), strict)
        {
          assert wk.batch[j].id == e.ids[j];
        }
      } else if e.Ingest? || e.DeleteDoc? || e.w != w {
        StepOwnsOther(c, s, e, w, strict);
      } else {
        StepOwnsMover(c, s, e, strict);
      }
    }
  }

  // ---- Every run ----

  lemma {:induction false} RunLocks(c: Config, s: State, es: seq<Event>, t: State, strict: bool)
    requires c.locks == BatchLocks && LockInv(s, strict) && Runs(c, s, es, t)
    requires forall e :: e in es ==> Allowed(e, strict)
    ensures LockInv(t, strict)
    decreases |es|
  {
    if es != [] {
      assert Allowed(es[0], strict);
      StepLocks(c, s, es[0], strict);
      RunLocks(c, Apply(c, s, es[0]), es[1..], t, strict);
    }
  }

  /** The failed attempts of row `r` along a run: each ends in one retry update. */
  ghost function FailedAttempts(c: Config, s: State, es: seq<Event>, r: RowId): nat
    decreases |es|
  {
    if es == [] || !Enabled(c, s, es[0]) then 0
    else (if es[0].FailCommit? && s.workers[es[0].w].Current().id == r then 1 else 0)
         + FailedAttempts(c, Apply(c, s, es[0]), es[1..], r)
  }

  function RetryOf(s: State, r: RowId): nat {
    if r < |s.rows| then s.rows[r].retry else 0
  }

  lemma StepRetryCount(c: Config, s: State, e: Event, r: RowId)
    requires c.locks == BatchLocks && LockInv(s, false) && Enabled(c, s, e)
    ensures RetryOf(Apply(c, s, e), r) == RetryOf(s, r) + FailedAttempts(c, s, [e], r)
  {
    assert FailedAttempts(c, Apply(c, s, e), [e][1..], r) == 0;
    if r < |s.rows| {
      if Touches(s, e, r) {
        var wk := s.workers[e.w];
        assert OwnsBatch(s, wk, false);
        assert RowMatches(s, wk.batch[wk.cursor], true, wk.phase, false);
      } else {
        StepUntouched(c, s, e, r);
      }
    }
  }

  lemma {:induction false} RunRetryCount(c: Config, s: State, es: seq<Event>, t: State, r: RowId)
    requires c.locks == BatchLocks && LockInv(s, false) && Runs(c, s, es, t)
    ensures RetryOf(t, r) == RetryOf(s, r) + FailedAttempts(c, s, es, r)
    decreases |es|
  {
    if es != [] {
      var u := Apply(c, s, es[0]);
      StepRetryCount(c, s, es[0], r);
      assert FailedAttempts(c, u, [es[0]][1..], r) == 0;
      StepLocks(c, s, es[0], false);
      RunRetryCount(c, u, es[1..], t, r);
    }
  }

  /** With batch-long locks the retry count is exactly the number of failed attempts, over any
      run from the start, so no row is ever attempted and failed more than MAX_RETRIES times. */
  lemma RetryCountsFailures(c: Config, es: seq<Event>, t: State, r: RowId)
    requires c.locks == BatchLocks && Runs(c, INIT, es, t) && r < |t.rows|
    ensures t.rows[r].retry == FailedAttempts(c, INIT, es, r)
    ensures FailedAttempts(c, INIT, es, r) <= MAX_RETRIES
  {
    RunRetryCount(c, INIT, es, t, r);
    RetryBounds(c, t, r);
  }

  /** With batch-long locks a retry count never decreases. */
  lemma RetryMonotone(c: Config, es: seq<Event>, t: State, fs: seq<Event>, u: State, r: RowId)
    requires c.locks == BatchLocks && Runs(c, INIT, es, t) && Runs(c, t, fs, u) && r < |t.rows|
    ensures r < |u.rows| && t.rows[r].retry <= u.rows[r].retry
  {
    RunLocks(c, INIT, es, t, false);
    RunRetryCount(c, t, fs, u, r);
    RowsStay(c, t, fs, u);
  }

  lemma {:induction false} RowsStay(c: Config, s: State, es: seq<Event>, t: State)
    requires Runs(c, s, es, t)
    ensures |s.rows| <= |t.rows|
    decreases |es|
  {
    if es != [] {
      RowsStay(c, Apply(c, s, es[0]), es[1..], t);
    }
  }

  /** With batch-long locks a dead row is settled, and so is a published one as long as no ready
      check raises. */
  lemma LocksSettle(s: State, r: RowId, strict: bool)
    requires LockInv(s, strict)
    requires r < |s.rows| && (s.rows[r].status == DEAD || (strict && s.rows[r].status == PUBLISHED))
    ensures Settled(s, r, !strict)
  {
    forall w, j: nat | w in s.workers && Has(s.workers[w], j, r)
      ensures Spares(s.workers[w], j, s.rows[r].status, !strict)
    {
      var wk := s.workers[w];
      assert OwnsBatch(s, wk, strict);
      assert RowMatches(s, wk.batch[j], j == wk.cursor, wk.phase, strict);
    }
  }

  /** With batch-long locks a dead row stays as it is, whatever happens. */
  lemma DeadIsTerminal(c: Config, es: seq<Event>, t: State, fs: seq<Event>, u: State, r: RowId)
    requires c.locks == BatchLocks && Runs(c, INIT, es, t) && Runs(c, t, fs, u)
    requires r < |t.rows| && t.rows[r].status == DEAD
    ensures r < |u.rows| && u.rows[r] == t.rows[r]
  {
    RunLocks(c, INIT, es, t, false);
    LocksSettle(t, r, false);
    RunInv(c, INIT, es, t);
    RunSettled(c, t, fs, u, r, true);
  }

  /** With batch-long locks a published row stays published as long as no ready check raises:
      the check runs inside the same `try` as the publish commit. */
  lemma PublishedIsTerminal(c: Config, es: seq<Event>, t: State, fs: seq<Event>, u: State, r: RowId)
    requires c.locks == BatchLocks && Runs(c, INIT, es, t) && Runs(c, t, fs, u)
    requires forall e :: e in es + fs ==> !e.MarkFail?
    requires r < |t.rows| && t.rows[r].status == PUBLISHED
    ensures r < |u.rows| && u.rows[r] == t.rows[r]
  {
    assert forall e :: e in es ==> e in es + fs;
    assert forall e :: e in fs ==> e in es + fs;
    RunLocks(c, INIT, es, t, true);
    LocksSettle(t, r, true);
    RunInv(c, INIT, es, t);
    RunSettled(c, t, fs, u, r, false);
  }

  // ---- Under every discipline ----

  predicate FailsRow(s: State, e: Event, r: RowId) {
    e.FailCommit? && Busy(s, e.w) && s.workers[e.w].Current().id == r
  }

  /** At every point of the run the retry count is the number of failed attempts so far, `n` at
      its start. */
  ghost predicate Counted(c: Config, s: State, es: seq<Event>, r: RowId, n: nat)
    decreases |es|
  {
    && RetryOf(s, r) == n
    && (es != [] && Enabled(c, s, es[0]) ==>
          Counted(c, Apply(c, s, es[0]), es[1..], r, if FailsRow(s, es[0], r) then n + 1 else n))
  }

  /** Every failure of the row is committed from a snapshot that still shows its retry count. */
  ghost predicate FreshFailures(c: Config, s: State, es: seq<Event>, r: RowId)
    decreases |es|
  {
    es != [] && Enabled(c, s, es[0]) ==>
      && (FailsRow(s, es[0], r) ==> s.workers[es[0].w].Current().retry == s.rows[r].retry)
      && FreshFailures(c, Apply(c, s, es[0]), es[1..], r)
  }

  lemma StepRetry(c: Config, s: State, e: Event, r: RowId)
    requires Enabled(c, s, e)
    ensures RetryOf(Apply(c, s, e), r)
         == if FailsRow(s, e, r) then s.workers[e.w].Current().retry + 1 else RetryOf(s, r)
  {
    if r < |s.rows| && !FailsRow(s, e, r) && !Touches(s, e, r) {
      StepUntouched(c, s, e, r);
    }
  }

  lemma {:induction false} CountedIffFresh(c: Config, s: State, es: seq<Event>, t: State, r: RowId, n: nat)
    requires Runs(c, s, es, t) && RetryOf(s, r) == n
    ensures Counted(c, s, es, r, n) <==> FreshFailures(c, s, es, r)
    decreases |es|
  {
    if es != [] {
      var u := Apply(c, s, es[0]);
      StepRetry(c, s, es[0], r);
      var n' := if FailsRow(s, es[0], r) then n + 1 else n;
      if RetryOf(u, r) == n' {
        CountedIffFresh(c, u, es[1..], t, r, n');
      }
    }
  }

  /** Under every lock discipline: along a run the retry count of a row is, at every point, the
      number of its failed attempts iff no failure was committed from a stale snapshot. */
  lemma RetryCountsIffFresh(c: Config, es: seq<Event>, t: State, r: RowId)
    requires Runs(c, INIT, es, t)
    ensures Counted(c, INIT, es, r, 0) <==> FreshFailures(c, INIT, es, r)
  {
    CountedIffFresh(c, INIT, es, t, r, 0);
  }

  /** With batch-long locks no snapshot is stale. */
  lemma {:induction false} LocksKeepFresh(c: Config, s: State, es: seq<Event>, t: State, r: RowId)
    requires c.locks == BatchLocks && LockInv(s, false) && Runs(c, s, es, t)
    ensures FreshFailures(c, s, es, r)
    decreases |es|
  {
    if es != [] {
      if FailsRow(s, es[0], r) {
        var wk := s.workers[es[0].w];
        assert OwnsBatch(s, wk, false);
        assert RowMatches(s, wk.batch[wk.cursor], true, wk.phase, false);
      }
      StepLocks(c, s, es[0], false);
      LocksKeepFresh(c, Apply(c, s, es[0]), es[1..], t, r);
    }
  }
}
