/**
When the retry count of a row can still fall. A worker that fails a row writes its snapshot's count plus one,
whatever the row has counted since.
*/
module OutboxFalls {
  import opened OutboxModel
  import opened OutboxSafety
  import opened OutboxMoves
  import opened OutboxFinal
  import opened OutboxWalk
  import opened OutboxRetry

  // ---- The condition ----

  /** Some later step writes a smaller retry count. */
  ghost predicate CanFall(c: Config, s: State, r: RowId) {
    exists t, e :: CanLead(c, s, t, true) && Enabled(c, t, e) && Falls(c, t, e, r)
  }

  ghost predicate Falls(c: Config, s: State, e: Event, r: RowId)
    requires Enabled(c, s, e)
  {
    RetryOf(Apply(c, s, e), r) < RetryOf(s, r)
  }

  predicate Holder(s: State, w: WorkerId, j: nat, r: RowId) {
    w in s.workers && Has(s.workers[w], j, r)
  }

  function Shown(s: State, w: WorkerId, j: nat, r: RowId): nat
    requires Holder(s, w, j, r)
  {
    s.workers[w].batch[j].retry
  }

  /** The row is not open for another two failures, and what its holders would write is not less than its
      count, nor than what the others may have written by then. */
  ghost predicate Steady(s: State, r: RowId)
    requires r < |s.rows|
  {
    && (s.rows[r].status == PENDING ==> s.rows[r].retry + 1 == MAX_RETRIES)
    && forall w, j: nat :: Holder(s, w, j, r) ==> SteadyHolder(s, w, j, r)
  }

  ghost predicate SteadyHolder(s: State, w: WorkerId, j: nat, r: RowId)
    requires r < |s.rows| && Holder(s, w, j, r)
  {
    && Shown(s, w, j, r) + 2 >= MAX_RETRIES
    && Shown(s, w, j, r) + 1 >= s.rows[r].retry
    && (Shown(s, w, j, r) + 2 == MAX_RETRIES ==> s.rows[r].status != PENDING && OnlyHolder(s, w, r))
  }

  ghost predicate OnlyHolder(s: State, w: WorkerId, r: RowId) {
    forall v, i: nat :: Holder(s, v, i, r) ==> v == w
  }

  // ---- A batch has each row once ----

  predicate DistinctRows(wk: Worker) {
    forall i, j :: 0 <= i < j < |wk.batch| ==> wk.batch[i].id != wk.batch[j].id
  }

  ghost predicate AllDistinct(s: State) {
    forall w :: w in s.workers ==> DistinctRows(s.workers[w])
  }

  lemma StepDistinct(c: Config, s: State, e: Event)
    requires AllDistinct(s) && Enabled(c, s, e)
    ensures AllDistinct(Apply(c, s, e))
  {
    var t := Apply(c, s, e);
    forall w | w in t.workers
      ensures DistinctRows(t.workers[w])
    {
      if w in s.workers {
        assert t.workers[w].batch == s.workers[w].batch && DistinctRows(s.workers[w]);
      }
    }
  }

  lemma {:induction false} RunDistinct(c: Config, s: State, es: seq<Event>, t: State)
    requires AllDistinct(s) && Runs(c, s, es, t)
    ensures AllDistinct(t)
    decreases |es|
  {
    if es != [] {
      StepDistinct(c, s, es[0]);
      RunDistinct(c, Apply(c, s, es[0]), es[1..], t);
    }
  }

  // ---- A steady row stays so ----

  lemma HolderBack(c: Config, s: State, e: Event, w: WorkerId, j: nat, r: RowId)
    requires Enabled(c, s, e) && Holder(Apply(c, s, e), w, j, r)
    ensures w in s.workers ==> Holder(s, w, j, r) && Shown(s, w, j, r) == Shown(Apply(c, s, e), w, j, r)
    ensures w !in s.workers ==>
              r < |s.rows| && s.rows[r].status == PENDING && Shown(Apply(c, s, e), w, j, r) == s.rows[r].retry
  {
    if w !in s.workers {
      assert e.Claim? && e.w == w && e.ids[j] == r;
    }
  }

  /** Whoever failed the row is past it. */
  lemma FailerGone(c: Config, s: State, e: Event, w: WorkerId, j: nat, r: RowId)
    requires AllDistinct(s) && Enabled(c, s, e) && FailsRow(s, e, r) && Holder(Apply(c, s, e), w, j, r)
    ensures w != e.w && w in s.workers
  {
    assert DistinctRows(s.workers[e.w]);
  }

  lemma StepSteadyFailed(c: Config, s: State, e: Event, r: RowId, w: WorkerId, j: nat)
    requires Inv(c, s) && AllDistinct(s) && r < |s.rows| && Steady(s, r) && Enabled(c, s, e) && FailsRow(s, e, r)
    requires Holder(Apply(c, s, e), w, j, r) && r < |Apply(c, s, e).rows|
    ensures SteadyHolder(Apply(c, s, e), w, j, r)
  {
    var t := Apply(c, s, e);
    var f := e.w;
    assert Holder(s, f, s.workers[f].cursor, r) && SteadyHolder(s, f, s.workers[f].cursor, r);
    FailerGone(c, s, e, w, j, r);
    HolderBack(c, s, e, w, j, r);
    assert SteadyHolder(s, w, j, r);
    assert Shown(s, w, j, r) + 2 > MAX_RETRIES;
    assert WorkerOk(s, s.workers[f]) && SnapOk(s, s.workers[f].Current());
  }

  lemma StepSteadyOther(c: Config, s: State, e: Event, r: RowId, w: WorkerId, j: nat)
    requires Inv(c, s) && r < |s.rows| && Steady(s, r) && Enabled(c, s, e) && !FailsRow(s, e, r)
    requires Holder(Apply(c, s, e), w, j, r) && r < |Apply(c, s, e).rows|
    ensures SteadyHolder(Apply(c, s, e), w, j, r)
  {
    var t := Apply(c, s, e);
    RowOtherwise(c, s, e, r);
    HolderBack(c, s, e, w, j, r);
    if w in s.workers {
      assert SteadyHolder(s, w, j, r);
      if Shown(s, w, j, r) + 2 == MAX_RETRIES {
        forall v, i: nat | Holder(t, v, i, r)
          ensures v == w
        {
          HolderBack(c, s, e, v, i, r);
        }
      }
    }
  }

  /** What a step other than a failure of the row does to it. */
  lemma RowOtherwise(c: Config, s: State, e: Event, r: RowId)
    requires Enabled(c, s, e) && r < |s.rows| && !FailsRow(s, e, r)
    ensures r < |Apply(c, s, e).rows| && Apply(c, s, e).rows[r].retry == s.rows[r].retry
    ensures Apply(c, s, e).rows[r].status == PENDING ==> s.rows[r].status == PENDING
  {
  }

  lemma StepSteady(c: Config, s: State, e: Event, r: RowId)
    requires Inv(c, s) && AllDistinct(s) && r < |s.rows| && Steady(s, r) && Enabled(c, s, e)
    ensures r < |Apply(c, s, e).rows| && Steady(Apply(c, s, e), r) && !Falls(c, s, e, r)
  {
    var t := Apply(c, s, e);
    StepExtends(c, s, e);
    StepRetry(c, s, e, r);
    if FailsRow(s, e, r) {
      var j := s.workers[e.w].cursor;
      assert Holder(s, e.w, j, r) && SteadyHolder(s, e.w, j, r);
      assert t.rows[r].status == PENDING ==> t.rows[r].retry + 1 == MAX_RETRIES;
    } else {
      RowOtherwise(c, s, e, r);
    }
    forall w, j: nat | Holder(t, w, j, r)
      ensures SteadyHolder(t, w, j, r)
    {
      if FailsRow(s, e, r) {
        StepSteadyFailed(c, s, e, r, w, j);
      } else {
        StepSteadyOther(c, s, e, r, w, j);
      }
    }
  }

  lemma {:induction false} RunSteady(c: Config, s: State, es: seq<Event>, t: State, r: RowId)
    requires Inv(c, s) && AllDistinct(s) && r < |s.rows| && Steady(s, r) && Runs(c, s, es, t)
    ensures Inv(c, t) && AllDistinct(t) && r < |t.rows| && Steady(t, r)
    decreases |es|
  {
    if es != [] {
      StepInv(c, s, es[0]);
      StepDistinct(c, s, es[0]);
      StepSteady(c, s, es[0], r);
      RunSteady(c, Apply(c, s, es[0]), es[1..], t, r);
    }
  }

  lemma SteadyNeverFalls(c: Config, s: State, r: RowId)
    requires Inv(c, s) && AllDistinct(s) && r < |s.rows| && Steady(s, r)
    ensures !CanFall(c, s, r)
  {
    forall t, e | CanLead(c, s, t, true) && Enabled(c, t, e)
      ensures !Falls(c, t, e, r)
    {
      var es :| Runs(c, s, es, t) && Within(es, true);
      RunSteady(c, s, es, t, r);
      StepSteady(c, t, e, r);
    }
  }

  // ---- An unsteady row can fall ----

  lemma FallsLater(c: Config, s: State, t: State, r: RowId)
    requires CanLead(c, s, t, true) && CanFall(c, t, r)
    ensures CanFall(c, s, r)
  {
    var u, e :| CanLead(c, t, u, true) && Enabled(c, u, e) && Falls(c, u, e, r);
    CanLeadTrans(c, s, t, u, true);
  }

  /** The worker fails what comes before `r`. */
  lemma {:induction false} WalkTo(c: Config, s: State, w: WorkerId, wk: Worker, j: nat, r: RowId)
    returns (t: State, at: Worker)
    requires Inv(c, s) && Unlocked(s) && w in s.workers && s.workers[w] == wk && DistinctRows(wk)
    requires Has(wk, j, r) && r < |s.rows|
    ensures CanLead(c, s, t, true) && |t.rows| == |s.rows| && t.rows[r] == s.rows[r]
    ensures t.workers == s.workers[w := at] && at.batch == wk.batch && at.cursor == j && at.held == {}
    decreases j - wk.cursor
  {
    assert WorkerOk(s, wk) && SnapOk(s, wk.Current());
    if j == wk.cursor {
      t, at := s, wk;
      CanLeadNone(c, s, true);
    } else {
      var u := WalkFail(c, s, w);
      CanLeadInv(c, s, u, true);
      t, at := WalkTo(c, u, w, AtIndex(wk, wk.cursor + 1), j, r);
      CanLeadTrans(c, s, u, t, true);
    }
  }

  /** The row as a failure leaves it. */
  predicate FailedFrom(s: State, t: State, r: RowId, shown: nat)
    requires r < |s.rows|
  {
    r < |t.rows| && t.rows[r] == s.rows[r].(retry := shown + 1, status := FailedStatus(shown + 1))
  }

  lemma FailOn(c: Config, s: State, w: WorkerId, wk: Worker, r: RowId) returns (t: State)
    requires Unlocked(s) && w in s.workers && s.workers[w] == wk && wk.HasRow() && wk.Current().id == r < |s.rows|
    ensures CanLead(c, s, t, true) && FailedFrom(s, t, r, wk.Current().retry)
    ensures t.workers == s.workers[w := AtIndex(wk, wk.cursor + 1)]
  {
    t := WalkFail(c, s, w);
  }

  lemma FailAt(c: Config, s: State, w: WorkerId, j: nat, r: RowId) returns (t: State)
    requires Inv(c, s) && Unlocked(s) && Holder(s, w, j, r) && DistinctRows(s.workers[w]) && r < |s.rows|
    ensures CanLead(c, s, t, true) && FailedFrom(s, t, r, Shown(s, w, j, r))
    ensures t.workers == s.workers[w := AtIndex(s.workers[w], j + 1)]
  {
    var wk := s.workers[w];
    var u, at := WalkTo(c, s, w, wk, j, r);
    assert at.HasRow() && at.Current() == wk.batch[j];
    var rest := AtIndex(wk, j + 1);
    assert AtIndex(at, at.cursor + 1) == rest;
    t := FailOn(c, u, w, at, r);
    assert t.workers == s.workers[w := at][w := rest];
    CanLeadTrans(c, s, u, t, true);
  }

  /** A holder that would write less. */
  lemma HolderFalls(c: Config, s: State, w: WorkerId, j: nat, r: RowId)
    requires Inv(c, s) && Unlocked(s) && Holder(s, w, j, r) && DistinctRows(s.workers[w]) && r < |s.rows|
    requires Shown(s, w, j, r) + 1 < s.rows[r].retry
    ensures CanFall(c, s, r)
  {
    var t, at := WalkTo(c, s, w, s.workers[w], j, r);
    assert at.HasRow() && at.Current() == s.workers[w].batch[j];
    FallsHere(c, t, w, at, r);
    FallsLater(c, s, t, r);
  }

  lemma FallsHere(c: Config, s: State, w: WorkerId, wk: Worker, r: RowId)
    requires Unlocked(s) && w in s.workers && s.workers[w] == wk && wk.HasRow() && wk.Current().id == r < |s.rows|
    requires wk.Current().retry + 1 < s.rows[r].retry
    ensures CanFall(c, s, r)
  {
    var t := s;
    CanLeadNone(c, s, true);
    if wk.phase != Failing {
      t := OutboxMoves.Raise(c, s, w);
      LeadsCan(c, s, t);
    }
    UnlockedFree(t, w, r);
    assert Enabled(c, t, FailCommit(w)) && Falls(c, t, FailCommit(w), r);
  }

  /** An open row is claimed by a new worker and failed. */
  lemma FailOpen(c: Config, s: State, r: RowId) returns (t: State)
    requires Unlocked(s) && r < |s.rows| && s.rows[r].status == PENDING
    ensures CanLead(c, s, t, true) && FailedFrom(s, t, r, s.rows[r].retry) && t.workers == s.workers
  {
    var w := Unused(s.workers.Keys);
    UnlockedFree(s, w, r);
    var u := ClaimOne(c, s, w, r);
    t := FailLone(c, u, w, r);
    LeadsTrans(c, s, u, t);
    LeadsCan(c, s, t);
    assert t.workers == s.workers;
  }

  lemma FailLone(c: Config, s: State, w: WorkerId, r: RowId) returns (t: State)
    requires r < |s.rows| && w in s.workers && s.workers[w] == Worker([Snap1(s, r)], 0, Calling(0), {r})
    requires forall v :: v in s.workers && v != w ==> s.workers[v].held == {}
    ensures Leads(c, s, t) && FailedFrom(s, t, r, s.rows[r].retry) && t.workers == s.workers - {w}
  {
    assert Busy(s, w) && s.workers[w].Current() == Snap1(s, r) && !HeldByOther(s, w, r);
    var u := FailRow(c, s, w);
    assert u.workers[w].cursor == 1 && |u.workers[w].batch| == 1;
    t := EndBatch(c, u, w);
    LeadsTrans(c, s, u, t);
  }

  /** Somebody has an open row ahead, and others fail it twice. */
  lemma OpenFalls(c: Config, s: State, r: RowId)
    requires c.locks == PerRowCommit && Inv(c, s) && Unlocked(s) && r < |s.rows|
    requires s.rows[r].status == PENDING && s.rows[r].retry + 1 < MAX_RETRIES
    ensures CanFall(c, s, r)
  {
    var t, v := PutAhead(c, s, r);
    var u := FailOpen(c, t, r);
    var x := FailOpen(c, u, r);
    CanLeadTrans(c, s, t, u, true);
    CanLeadTrans(c, s, u, x, true);
    CanLeadInv(c, s, x, true);
    AheadDistinct(s, t, v, r);
    assert Holder(x, v, 1, r) && Shown(x, v, 1, r) == s.rows[r].retry;
    HolderFalls(c, x, v, 1, r);
    FallsLater(c, s, x, r);
  }

  lemma AheadDistinct(s: State, t: State, v: WorkerId, r: RowId)
    requires r < |s.rows| && GotAhead(s, t, v, r)
    ensures DistinctRows(t.workers[v])
  {
  }

  /** A holder from before the last failure, and the row is open for one more. */
  lemma StaleFalls(c: Config, s: State, w: WorkerId, j: nat, r: RowId)
    requires c.locks == PerRowCommit && Inv(c, s) && Unlocked(s) && Holder(s, w, j, r) && DistinctRows(s.workers[w])
    requires r < |s.rows| && s.rows[r].status == PENDING && s.rows[r].retry == Shown(s, w, j, r) + 1
    ensures CanFall(c, s, r)
  {
    var t := FailOpen(c, s, r);
    CanLeadInv(c, s, t, true);
    assert Holder(t, w, j, r) && Shown(t, w, j, r) == Shown(s, w, j, r);
    HolderFalls(c, t, w, j, r);
    FallsLater(c, s, t, r);
  }

  /** Two holders: the one fails the row, and what the other one shows is too old then. */
  lemma TwoFall(c: Config, s: State, w: WorkerId, j: nat, v: WorkerId, i: nat, r: RowId)
    requires c.locks == PerRowCommit && Inv(c, s) && Unlocked(s) && AllDistinct(s) && r < |s.rows|
    requires Holder(s, w, j, r) && Holder(s, v, i, r) && v != w
    requires Shown(s, w, j, r) + 2 == MAX_RETRIES && Shown(s, v, i, r) + 2 >= MAX_RETRIES
    ensures CanFall(c, s, r)
  {
    assert WorkerOk(s, s.workers[v]) && SnapOk(s, s.workers[v].batch[i]);
    assert DistinctRows(s.workers[v]) && DistinctRows(s.workers[w]);
    var t := FailAt(c, s, v, i, r);
    CanLeadInv(c, s, t, true);
    assert Holder(t, w, j, r) && Shown(t, w, j, r) == Shown(s, w, j, r);
    if Shown(s, v, i, r) + 1 == MAX_RETRIES {
      HolderFalls(c, t, w, j, r);
    } else {
      StaleFalls(c, t, w, j, r);
    }
    FallsLater(c, s, t, r);
  }

  // ---- Exactly when ----

  /** Only the workers of `team`, none of which holds a lock. */
  lemma Alone(c: Config, s: State, team: set<WorkerId>) returns (t: State)
    requires Inv(c, s) && AllDistinct(s) && team <= s.workers.Keys
    requires forall w :: w in team ==> s.workers[w].held == {}
    ensures CanLead(c, s, t, true) && Inv(c, t) && AllDistinct(t) && Unlocked(t) && t.rows == s.rows
    ensures t.workers.Keys == team && forall w :: w in team ==> t.workers[w] == s.workers[w]
  {
    t := Among(s, team);
    CrashRest(c, s, team, true);
    CanLeadInv(c, s, t, true);
    assert t.workers.Keys == team;
  }

  lemma HolderUnsteady(c: Config, s: State, w: WorkerId, j: nat, r: RowId)
    requires c.locks == PerRowCommit && Inv(c, s) && AllHoldOpen(s) && AllDistinct(s) && r < |s.rows|
    requires Holder(s, w, j, r)
    requires s.rows[r].status == PENDING ==> s.rows[r].retry + 1 == MAX_RETRIES
    requires Shown(s, w, j, r) + 2 < MAX_RETRIES || Shown(s, w, j, r) + 1 < s.rows[r].retry
             || (Shown(s, w, j, r) + 2 == MAX_RETRIES && s.rows[r].status == PENDING)
    ensures CanFall(c, s, r)
  {
    ClosedUnlocked(s, s.workers[w], j);
    var t := Alone(c, s, {w});
    assert Holder(t, w, j, r) && DistinctRows(t.workers[w]);
    if Shown(s, w, j, r) + 1 < s.rows[r].retry {
      HolderFalls(c, t, w, j, r);
    } else if Shown(s, w, j, r) + 2 < MAX_RETRIES {
      var u := FailAt(c, t, w, j, r);
      CanLeadInv(c, t, u, true);
      OpenFalls(c, u, r);
      FallsLater(c, t, u, r);
    } else {
      StaleFalls(c, t, w, j, r);
    }
    FallsLater(c, s, t, r);
  }

  lemma OthersUnsteady(c: Config, s: State, w: WorkerId, j: nat, v: WorkerId, i: nat, r: RowId)
    requires c.locks == PerRowCommit && Inv(c, s) && AllHoldOpen(s) && AllDistinct(s) && r < |s.rows|
    requires Holder(s, w, j, r) && Holder(s, v, i, r) && v != w && s.rows[r].status != PENDING
    requires Shown(s, w, j, r) + 2 == MAX_RETRIES
    ensures CanFall(c, s, r)
  {
    if Shown(s, v, i, r) + 2 < MAX_RETRIES {
      HolderUnsteady(c, s, v, i, r);
    } else {
      ClosedUnlocked(s, s.workers[w], j);
      ClosedUnlocked(s, s.workers[v], i);
      var t := Alone(c, s, {w, v});
      assert Holder(t, w, j, r) && Holder(t, v, i, r);
      TwoFall(c, t, w, j, v, i, r);
      FallsLater(c, s, t, r);
    }
  }

  lemma UnsteadyFalls(c: Config, s: State, r: RowId)
    requires c.locks == PerRowCommit && Inv(c, s) && AllHoldOpen(s) && AllDistinct(s) && r < |s.rows|
    requires !Steady(s, r)
    ensures CanFall(c, s, r)
  {
    if s.rows[r].status == PENDING && s.rows[r].retry + 1 != MAX_RETRIES {
      assert RetryOk(s.rows[r]);
      var t := Alone(c, s, {});
      OpenFalls(c, t, r);
      FallsLater(c, s, t, r);
    } else {
      var w, j: nat :| Holder(s, w, j, r) && !SteadyHolder(s, w, j, r);
      if Shown(s, w, j, r) + 2 == MAX_RETRIES && s.rows[r].status != PENDING && !OnlyHolder(s, w, r) {
        var v, i: nat :| Holder(s, v, i, r) && v != w;
        OthersUnsteady(c, s, w, j, v, i, r);
      } else {
        HolderUnsteady(c, s, w, j, r);
      }
    }
  }

  lemma LocksNeverFall(c: Config, s: State, r: RowId)
    requires c.locks == BatchLocks && Reachable(c, s) && r < |s.rows|
    ensures !CanFall(c, s, r)
  {
    forall t, e | CanLead(c, s, t, true) && Enabled(c, t, e)
      ensures !Falls(c, t, e, r)
    {
      LeadsCan(c, s, t);
      LeadsTrans(c, INIT, s, t);
      var es :| Runs(c, INIT, es, t);
      LeadsOne(c, t, e);
      var fs :| Runs(c, s, fs, t);
      RowsStay(c, s, fs, t);
      var gs :| Runs(c, t, gs, Apply(c, t, e));
      RetryMonotone(c, es, t, gs, Apply(c, t, e), r);
    }
  }

  /** Exactly when the retry count of a row can fall later: never with batch-long locks, and as coded unless
      the row is steady. An open row can always be failed twice more behind the back of a worker that has it
      ahead, if it has that many retries left. Otherwise it takes a holder with an old snapshot: one that
      shows at least two retries less than the row has or may have, or that shows three and has
      company. */
  lemma CanFallIff(c: Config, s: State, r: RowId)
    requires Reachable(c, s) && r < |s.rows|
    ensures CanFall(c, s, r) <==> c.locks == PerRowCommit && !Steady(s, r)
  {
    ReachableInv(c, s);
    if c.locks == BatchLocks {
      LocksNeverFall(c, s, r);
    } else {
      var es :| Runs(c, INIT, es, s);
      RunHolds(c, INIT, es, s);
      RunDistinct(c, INIT, es, s);
      if Steady(s, r) {
        SteadyNeverFalls(c, s, r);
      } else {
        UnsteadyFalls(c, s, r);
      }
    }
  }
}
