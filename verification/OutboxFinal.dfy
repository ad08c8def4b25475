/**
When a row is final: the exact condition, for every lock discipline, under which no run changes
it again.
*/
module OutboxFinal {
  import opened OutboxModel
  import opened OutboxSafety

  // ---- The condition ----

  predicate Checking(wk: Worker) {
    wk.phase == AtCount || wk.phase == AtMark
  }

  /** The worker cannot change row `batch[j].id`, whose status is `status`: it is past the publish
      commit, or its retry update writes what is there. `checks`: ready checks may raise. */
  predicate Spares(wk: Worker, j: nat, status: RowStatus, checks: bool)
    requires j < |wk.batch|
  {
    && j == wk.cursor
    && match status
       case PENDING => false
       case PUBLISHED => Checking(wk) && !checks
       case DEAD =>
         || (Checking(wk) && !checks)
         || (!wk.phase.Calling? && wk.batch[j].retry + 1 == MAX_RETRIES)
  }

  predicate Has(wk: Worker, j: nat, r: RowId) {
    wk.cursor <= j < |wk.batch| && wk.batch[j].id == r
  }

  /** The row is not open, and every worker that has it at or ahead of its cursor spares it. */
  ghost predicate Settled(s: State, r: RowId, checks: bool) {
    && r < |s.rows|
    && s.rows[r].status != PENDING
    && forall w, j: nat :: w in s.workers && Has(s.workers[w], j, r) ==>
         Spares(s.workers[w], j, s.rows[r].status, checks)
  }

  // ---- Runs with or without raising checks ----

  ghost predicate Within(es: seq<Event>, checks: bool) {
    checks || forall e :: e in es ==> !e.MarkFail?
  }

  ghost predicate CanLead(c: Config, s: State, t: State, checks: bool) {
    exists es :: Runs(c, s, es, t) && Within(es, checks)
  }

  /** No run from `s` changes the row. */
  ghost predicate Final(c: Config, s: State, r: RowId, checks: bool)
    requires r < |s.rows|
  {
    forall t :: CanLead(c, s, t, checks) ==> r < |t.rows| && t.rows[r] == s.rows[r]
  }

  lemma CanLeadNone(c: Config, s: State, checks: bool)
    ensures CanLead(c, s, s, checks)
  {
    assert Runs(c, s, [], s) && Within([], checks);
  }

  lemma CanLeadOne(c: Config, s: State, e: Event, checks: bool)
    requires Enabled(c, s, e) && (checks || !e.MarkFail?)
    ensures CanLead(c, s, Apply(c, s, e), checks)
  {
    assert [e][1..] == [];
    assert Runs(c, s, [e], Apply(c, s, e)) && Within([e], checks);
  }

  lemma CanLeadTrans(c: Config, s: State, t: State, u: State, checks: bool)
    requires CanLead(c, s, t, checks) && CanLead(c, t, u, checks)
    ensures CanLead(c, s, u, checks)
  {
    var es :| Runs(c, s, es, t) && Within(es, checks);
    var fs :| Runs(c, t, fs, u) && Within(fs, checks);
    RunsConcat(c, s, es, t, fs, u);
    assert Within(es + fs, checks);
  }

  lemma LeadsCan(c: Config, s: State, t: State)
    ensures CanLead(c, s, t, true) <==> Leads(c, s, t)
  {
    if es :| Runs(c, s, es, t) {
      assert Within(es, true);
    }
  }

  // ---- A settled row is final ----

  lemma StepSettledRow(c: Config, s: State, e: Event, r: RowId, checks: bool)
    requires Inv(c, s) && Settled(s, r, checks) && Enabled(c, s, e) && (checks || !e.MarkFail?)
    ensures r < |Apply(c, s, e).rows| && Apply(c, s, e).rows[r] == s.rows[r]
  {
    assert RetryOk(s.rows[r]);
    if (e.Publish? || e.FailCommit?) && s.workers[e.w].Current().id == r {
      assert Has(s.workers[e.w], s.workers[e.w].cursor, r);
    }
  }

  lemma StepSettledWorker(c: Config, s: State, e: Event, r: RowId, checks: bool, w: WorkerId, j: nat)
    requires Inv(c, s) && Settled(s, r, checks) && Enabled(c, s, e) && (checks || !e.MarkFail?)
    requires w in Apply(c, s, e).workers && Has(Apply(c, s, e).workers[w], j, r)
    ensures Spares(Apply(c, s, e).workers[w], j, s.rows[r].status, checks)
  {
    var wk' := Apply(c, s, e).workers[w];
    if w in s.workers {
      assert wk'.batch == s.workers[w].batch && Has(s.workers[w], j, r);
    } else {
      ClaimedIsOpen(c, s, e, w, j, r);
      assert false;
    }
  }

  lemma ClaimedIsOpen(c: Config, s: State, e: Event, w: WorkerId, j: nat, r: RowId)
    requires Enabled(c, s, e) && w !in s.workers && w in Apply(c, s, e).workers
    requires Has(Apply(c, s, e).workers[w], j, r)
    ensures r < |s.rows| && s.rows[r].status == PENDING
  {
    assert e.Claim? && s.rows[e.ids[j]].status == PENDING;
  }

  lemma StepSettled(c: Config, s: State, e: Event, r: RowId, checks: bool)
    requires Inv(c, s) && Settled(s, r, checks) && Enabled(c, s, e) && (checks || !e.MarkFail?)
    ensures Settled(Apply(c, s, e), r, checks) && Apply(c, s, e).rows[r] == s.rows[r]
  {
    var t := Apply(c, s, e);
    StepSettledRow(c, s, e, r, checks);
    forall w, j: nat | w in t.workers && Has(t.workers[w], j, r)
      ensures Spares(t.workers[w], j, t.rows[r].status, checks)
    {
      StepSettledWorker(c, s, e, r, checks, w, j);
    }
  }

  lemma {:induction false} RunSettled(c: Config, s: State, es: seq<Event>, t: State, r: RowId, checks: bool)
    requires Inv(c, s) && Settled(s, r, checks) && Runs(c, s, es, t) && Within(es, checks)
    ensures r < |t.rows| && t.rows[r] == s.rows[r]
    decreases |es|
  {
    if es != [] {
      StepSettled(c, s, es[0], r, checks);
      StepInv(c, s, es[0]);
      assert Within(es[1..], checks);
      RunSettled(c, Apply(c, s, es[0]), es[1..], t, r, checks);
    }
  }

  // ---- An unsettled row is not ----

  predicate CallsOk(s: State, wk: Worker) {
    wk.HasRow() && wk.phase.Calling? ==> wk.phase.calls <= CallsOf(s, wk.Current())
  }

  lemma StepCalls(c: Config, s: State, e: Event, w: WorkerId)
    requires Inv(c, s) && Enabled(c, s, e) && w in Apply(c, s, e).workers
    requires w in s.workers ==> CallsOk(s, s.workers[w])
    ensures CallsOk(Apply(c, s, e), Apply(c, s, e).workers[w])
  {
    StepExtends(c, s, e);
    if w in s.workers && s.workers[w].HasRow() {
      var wk := s.workers[w];
      assert WorkerOk(s, wk) && SnapOk(s, wk.Current()) && RowOk(s, wk.Current().id);
    }
  }

  lemma {:induction false} RunCalls(c: Config, s: State, es: seq<Event>, t: State)
    requires Inv(c, s) && Runs(c, s, es, t) && forall w :: w in s.workers ==> CallsOk(s, s.workers[w])
    ensures forall w :: w in t.workers ==> CallsOk(t, t.workers[w])
    decreases |es|
  {
    if es != [] {
      var u := Apply(c, s, es[0]);
      forall w | w in u.workers
        ensures CallsOk(u, u.workers[w])
      {
        StepCalls(c, s, es[0], w);
      }
      StepInv(c, s, es[0]);
      RunCalls(c, u, es[1..], t);
    }
  }

  /** All workers but those of `team` have crashed. */
  function Among(s: State, team: set<WorkerId>): State {
    s.(workers := map w | w in s.workers && w in team :: s.workers[w])
  }

  lemma {:induction false} CrashRest(c: Config, s: State, team: set<WorkerId>, checks: bool)
    ensures CanLead(c, s, Among(s, team), checks)
    decreases |s.workers|
  {
    if v :| v in s.workers && v !in team {
      var u := Apply(c, s, Crash(v));
      CanLeadOne(c, s, Crash(v), checks);
      assert u.workers.Keys == s.workers.Keys - {v};
      CrashRest(c, u, team, checks);
      assert Among(u, team).workers == Among(s, team).workers;
      CanLeadTrans(c, s, u, Among(u, team), checks);
    } else {
      assert Among(s, team).workers == s.workers;
      CanLeadNone(c, s, checks);
    }
  }

  /** `w` is the only worker. */
  predicate Only(s: State, w: WorkerId, wk: Worker) {
    s.workers == map[w := wk]
  }

  lemma CanLeadInv(c: Config, s: State, t: State, checks: bool)
    requires Inv(c, s) && CanLead(c, s, t, checks)
    ensures Inv(c, t)
  {
    var es :| Runs(c, s, es, t) && Within(es, checks);
    RunInv(c, s, es, t);
  }

  function Retried(s: State, snap: Snap): seq<Row>
    requires snap.id < |s.rows|
  {
    s.rows[snap.id := s.rows[snap.id].(retry := snap.retry + 1, status := FailedStatus(snap.retry + 1))]
  }

  /** From `Failing` the retry update is committed. */
  lemma CommitRetry(c: Config, s: State, w: WorkerId, wk: Worker, checks: bool) returns (t: State, held: set<RowId>)
    requires Only(s, w, wk) && WorkerOk(s, wk) && wk.HasRow() && wk.phase == Failing
    ensures CanLead(c, s, t, checks)
    ensures t == s.(rows := Retried(s, wk.Current()), workers := map[w := wk.Advance(held)])
  {
    assert SnapOk(s, wk.Current());
    t := Apply(c, s, FailCommit(w));
    held := t.workers[w].held;
    CanLeadOne(c, s, FailCommit(w), checks);
  }

  lemma Raise(c: Config, s: State, w: WorkerId, wk: Worker, checks: bool)
    requires Only(s, w, wk) && WorkerOk(s, wk) && wk.HasRow() && wk.phase != Failing && (Checking(wk) ==> checks)
    ensures CanLead(c, s, s.(workers := map[w := wk.(phase := Failing)]), checks)
  {
    assert SnapOk(s, wk.Current());
    var e := if wk.phase.Calling? then HandlerFail(w) else MarkFail(w);
    assert Apply(c, s, e).workers == map[w := wk.(phase := Failing)];
    CanLeadOne(c, s, e, checks);
  }

  lemma RaiseRetry(c: Config, s: State, w: WorkerId, wk: Worker, checks: bool) returns (t: State, held: set<RowId>)
    requires Only(s, w, wk) && WorkerOk(s, wk) && wk.HasRow() && (Checking(wk) ==> checks)
    ensures SnapOk(s, wk.Current()) && CanLead(c, s, t, checks)
    ensures t == s.(rows := Retried(s, wk.Current()), workers := map[w := wk.Advance(held)])
  {
    if wk.phase == Failing {
      t, held := CommitRetry(c, s, w, wk, checks);
    } else {
      var failing := wk.(phase := Failing);
      var u := s.(workers := map[w := failing]);
      Raise(c, s, w, wk, checks);
      t, held := CommitRetry(c, u, w, failing, checks);
      CanLeadTrans(c, s, u, t, checks);
    }
  }

  lemma MarkOn(c: Config, s: State, w: WorkerId, wk: Worker, checks: bool) returns (t: State, held: set<RowId>)
    requires Only(s, w, wk) && WorkerOk(s, wk) && wk.HasRow() && wk.phase == AtMark
    ensures CanLead(c, s, t, checks)
    ensures t.rows == s.rows && Only(t, w, wk.Advance(held)) && t.docs == MarkReady(s, wk.Current().doc)
  {
    assert SnapOk(s, wk.Current());
    t := Apply(c, s, Mark(w));
    held := t.workers[w].held;
    CanLeadOne(c, s, Mark(w), checks);
  }

  lemma CountOn(c: Config, s: State, w: WorkerId, wk: Worker, checks: bool)
    requires Only(s, w, wk) && WorkerOk(s, wk) && wk.HasRow() && wk.phase == AtCount
    ensures var next := if AllPublished(s.rows, wk.Current().doc) then wk.(phase := AtMark) else wk.Advance(wk.held);
            CanLead(c, s, s.(workers := map[w := next]), checks)
  {
    assert SnapOk(s, wk.Current());
    var next := if AllPublished(s.rows, wk.Current().doc) then wk.(phase := AtMark) else wk.Advance(wk.held);
    assert Apply(c, s, Count(w)).workers == map[w := next];
    CanLeadOne(c, s, Count(w), checks);
  }

  lemma CountMarkOn(c: Config, s: State, w: WorkerId, wk: Worker, checks: bool) returns (t: State, held: set<RowId>)
    requires Only(s, w, wk) && WorkerOk(s, wk) && wk.HasRow() && wk.phase == AtCount
    requires AllPublished(s.rows, wk.Current().doc)
    ensures CanLead(c, s, t, checks)
    ensures t.rows == s.rows && Only(t, w, wk.Advance(held)) && t.docs == MarkReady(s, wk.Current().doc)
  {
    CountOn(c, s, w, wk, checks);
    var marking := wk.(phase := AtMark);
    var u := s.(workers := map[w := marking]);
    t, held := MarkOn(c, u, w, marking, checks);
    CanLeadTrans(c, s, u, t, checks);
  }

  lemma CheckOn(c: Config, s: State, w: WorkerId, wk: Worker, checks: bool) returns (t: State, held: set<RowId>)
    requires Only(s, w, wk) && WorkerOk(s, wk) && wk.HasRow() && Checking(wk)
    ensures CanLead(c, s, t, checks)
    ensures t.rows == s.rows && Only(t, w, wk.Advance(held))
    ensures t.docs == s.docs || t.docs == MarkReady(s, wk.Current().doc)
  {
    if wk.phase == AtMark {
      t, held := MarkOn(c, s, w, wk, checks);
    } else if AllPublished(s.rows, wk.Current().doc) {
      t, held := CountMarkOn(c, s, w, wk, checks);
    } else {
      CountOn(c, s, w, wk, checks);
      held := wk.held;
      t := s.(workers := map[w := wk.Advance(held)]);
    }
  }

  /** The worker gets past its current row; no other row changes, and no other document. */
  lemma PassRow(c: Config, s: State, w: WorkerId, wk: Worker, checks: bool) returns (t: State, held: set<RowId>)
    requires Only(s, w, wk) && WorkerOk(s, wk) && wk.HasRow()
    ensures CanLead(c, s, t, checks)
    ensures Only(t, w, wk.Advance(held)) && |t.rows| == |s.rows|
    ensures forall k :: 0 <= k < |s.rows| && k != wk.Current().id ==> t.rows[k] == s.rows[k]
    ensures t.docs == s.docs || t.docs == MarkReady(s, wk.Current().doc)
  {
    assert SnapOk(s, wk.Current());
    if Checking(wk) {
      t, held := CheckOn(c, s, w, wk, checks);
    } else {
      t, held := RaiseRetry(c, s, w, wk, checks);
    }
  }

  lemma {:induction false} PublishOn(c: Config, s: State, w: WorkerId, wk: Worker, checks: bool)
    returns (t: State, held: set<RowId>)
    requires Only(s, w, wk) && wk.HasRow() && wk.Current().id < |s.rows| && wk.phase.Calling? && CallsOk(s, wk)
    ensures CanLead(c, s, t, checks) && t.docs == s.docs
    ensures t.rows == s.rows[wk.Current().id := s.rows[wk.Current().id].(status := PUBLISHED)]
    ensures Only(t, w, wk.(phase := AtCount, held := held))
    decreases CallsOf(s, wk.Current()) - wk.phase.calls
  {
    if wk.phase.calls == CallsOf(s, wk.Current()) {
      t := Apply(c, s, Publish(w));
      held := t.workers[w].held;
      CanLeadOne(c, s, Publish(w), checks);
    } else {
      var u := Apply(c, s, Call(w));
      var wk' := wk.(phase := Calling(wk.phase.calls + 1));
      assert u.workers == map[w := wk'];
      CanLeadOne(c, s, Call(w), checks);
      t, held := PublishOn(c, u, w, wk', checks);
      CanLeadTrans(c, s, u, t, checks);
    }
  }

  /** A lone worker that does not spare the row at its cursor changes it. */
  lemma ChangeHere(c: Config, s: State, w: WorkerId, wk: Worker, checks: bool) returns (t: State)
    requires Only(s, w, wk) && WorkerOk(s, wk) && wk.HasRow() && CallsOk(s, wk) && Retries(s)
    requires wk.Current().id < |s.rows| && s.rows[wk.Current().id].status != PENDING
    requires !Spares(wk, wk.cursor, s.rows[wk.Current().id].status, checks)
    ensures CanLead(c, s, t, checks) && wk.Current().id < |t.rows|
    ensures t.rows[wk.Current().id] != s.rows[wk.Current().id]
  {
    assert RetryOk(s.rows[wk.Current().id]);
    if wk.phase.Calling? && s.rows[wk.Current().id].status == DEAD {
      var held: set<RowId>;
      t, held := PublishOn(c, s, w, wk, checks);
    } else {
      var held: set<RowId>;
      t, held := RaiseRetry(c, s, w, wk, checks);
    }
  }

  lemma {:induction false} ChangeAhead(c: Config, s: State, w: WorkerId, wk: Worker, j: nat, r: RowId, checks: bool)
    returns (t: State)
    requires Inv(c, s) && Only(s, w, wk) && CallsOk(s, wk)
    requires r < |s.rows| && s.rows[r].status != PENDING
    requires Has(wk, j, r) && !Spares(wk, j, s.rows[r].status, checks)
    ensures CanLead(c, s, t, checks) && r < |t.rows| && t.rows[r] != s.rows[r]
    decreases j - wk.cursor
  {
    assert WorkerOk(s, s.workers[w]);
    if j == wk.cursor {
      t := ChangeHere(c, s, w, wk, checks);
    } else {
      var u, held := PassRow(c, s, w, wk, checks);
      if u.rows[r] != s.rows[r] {
        t := u;
      } else {
        CanLeadInv(c, s, u, checks);
        t := ChangeAhead(c, u, w, wk.Advance(held), j, r, checks);
        CanLeadTrans(c, s, u, t, checks);
      }
    }
  }

  lemma ClaimAlone(c: Config, s: State, r: RowId, checks: bool) returns (wk: Worker)
    requires s.workers == map[] && r < |s.rows| && s.rows[r].status == PENDING
    ensures CanLead(c, s, s.(workers := map[0 := wk]), checks)
    ensures wk.HasRow() && wk.Current() == Snap(r, s.rows[r].doc, s.rows[r].op, s.rows[r].retry)
    ensures wk.phase == Calling(0) && |wk.batch| == 1 && wk.cursor == 0
  {
    var t := Apply(c, s, Claim(0, [r]));
    wk := t.workers[0];
    CanLeadOne(c, s, Claim(0, [r]), checks);
  }

  /** Once no worker is left, an open row is claimed and its handler raises. */
  lemma ChangeOpen(c: Config, s: State, r: RowId, checks: bool) returns (t: State)
    requires Inv(c, s) && s.workers == map[] && r < |s.rows| && s.rows[r].status == PENDING
    ensures CanLead(c, s, t, checks) && r < |t.rows| && t.rows[r] != s.rows[r]
  {
    var wk := ClaimAlone(c, s, r, checks);
    var u := s.(workers := map[0 := wk]);
    CanLeadInv(c, s, u, checks);
    assert WorkerOk(u, u.workers[0]);
    var held: set<RowId>;
    t, held := RaiseRetry(c, u, 0, wk, checks);
    CanLeadTrans(c, s, u, t, checks);
  }

  lemma OpenChanges(c: Config, s: State, r: RowId, checks: bool) returns (t: State)
    requires Inv(c, s) && r < |s.rows| && s.rows[r].status == PENDING
    ensures CanLead(c, s, t, checks) && r < |t.rows| && t.rows[r] != s.rows[r]
  {
    var u := Among(s, {});
    CrashRest(c, s, {}, checks);
    CanLeadInv(c, s, u, checks);
    assert u.workers == map[];
    t := ChangeOpen(c, u, r, checks);
    CanLeadTrans(c, s, u, t, checks);
  }

  lemma HeldChanges(c: Config, s: State, r: RowId, w: WorkerId, j: nat, checks: bool) returns (t: State)
    requires Inv(c, s) && r < |s.rows| && s.rows[r].status != PENDING
    requires w in s.workers && CallsOk(s, s.workers[w]) && Has(s.workers[w], j, r)
    requires !Spares(s.workers[w], j, s.rows[r].status, checks)
    ensures CanLead(c, s, t, checks) && r < |t.rows| && t.rows[r] != s.rows[r]
  {
    var u := Among(s, {w});
    CrashRest(c, s, {w}, checks);
    CanLeadInv(c, s, u, checks);
    assert Only(u, w, s.workers[w]) && CallsOk(u, s.workers[w]);
    t := ChangeAhead(c, u, w, s.workers[w], j, r, checks);
    CanLeadTrans(c, s, u, t, checks);
  }

  lemma UnsettledChanges(c: Config, s: State, r: RowId, checks: bool) returns (t: State)
    requires Inv(c, s) && (forall w :: w in s.workers ==> CallsOk(s, s.workers[w]))
    requires r < |s.rows| && !Settled(s, r, checks)
    ensures CanLead(c, s, t, checks) && r < |t.rows| && t.rows[r] != s.rows[r]
  {
    if s.rows[r].status == PENDING {
      t := OpenChanges(c, s, r, checks);
    } else {
      var w, j: nat :| w in s.workers && Has(s.workers[w], j, r) && !Spares(s.workers[w], j, s.rows[r].status, checks);
      t := HeldChanges(c, s, r, w, j, checks);
    }
  }

  // ---- Exactly when a row is final ----

  /** Under every lock discipline a row of a reachable state never changes again exactly when it is
      settled. With raising ready checks allowed that means: a published row that no worker has at
      or ahead of its cursor; a dead row that such a worker has only at its cursor, past its calls,
      from a snapshot with one retry left. Without them a worker between its publish commit and
      its ready check is harmless as well. */
  lemma FinalIffSettled(c: Config, s: State, r: RowId, checks: bool)
    requires Reachable(c, s) && r < |s.rows|
    ensures Final(c, s, r, checks) <==> Settled(s, r, checks)
  {
    ReachableInv(c, s);
    if Settled(s, r, checks) {
      forall t | CanLead(c, s, t, checks)
        ensures r < |t.rows| && t.rows[r] == s.rows[r]
      {
        var es :| Runs(c, s, es, t) && Within(es, checks);
        RunSettled(c, s, es, t, r, checks);
      }
    } else {
      var es :| Runs(c, INIT, es, s);
      RunCalls(c, INIT, es, s);
      var t := UnsettledChanges(c, s, r, checks);
    }
  }

  /** A published row, as coded: final exactly when no worker will come to it or stands on it. */
  lemma PublishedFinalIff(c: Config, s: State, r: RowId)
    requires Reachable(c, s) && r < |s.rows| && s.rows[r].status == PUBLISHED
    ensures Final(c, s, r, true) <==> forall w, j: nat :: w in s.workers ==> !Has(s.workers[w], j, r)
  {
    FinalIffSettled(c, s, r, true);
  }

  /** A dead row, as coded: final exactly when whoever has it stands on it, past its calls, and
      would write the fifth retry again. */
  lemma DeadFinalIff(c: Config, s: State, r: RowId)
    requires Reachable(c, s) && r < |s.rows| && s.rows[r].status == DEAD
    ensures Final(c, s, r, true)
       <==> forall w, j: nat :: w in s.workers && Has(s.workers[w], j, r) ==>
              j == s.workers[w].cursor && !s.workers[w].phase.Calling? && s.workers[w].batch[j].retry + 1 == MAX_RETRIES
  {
    FinalIffSettled(c, s, r, true);
  }
}
