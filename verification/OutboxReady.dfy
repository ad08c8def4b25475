/**
Whether a document that still shows `processing` can become ready: the exact condition on its rows and the
workers that remember them. OutboxReadyRuns has the runs for the one half.
*/
module OutboxReady {
  import opened OutboxModel
  import opened OutboxSafety
  import opened OutboxWakeup
  import opened OutboxFinal

  // ---- The condition ----

  /** The worker has a row of `d` at or ahead of its cursor. */
  predicate HasDoc(wk: Worker, d: DocId) {
    exists j :: wk.cursor <= j < |wk.batch| && wk.batch[j].doc == d
  }

  /** The worker's next commit makes its current row, one of `d`, dead: its handler or its ready
      check raised, and its snapshot has one retry left. */
  predicate Dooms(wk: Worker, d: DocId) {
    wk.HasRow() && wk.Current().doc == d && wk.phase == Failing && wk.Current().retry + 1 == MAX_RETRIES
  }

  /** One of the workers can take the row out of `DEAD` again. */
  ghost predicate Revives(s: State, team: set<WorkerId>, r: RowId) {
    exists w, j: nat :: w in team && w in s.workers && Has(s.workers[w], j, r) && !Spares(s.workers[w], j, DEAD, true)
  }

  ghost predicate CanBecomeReady(c: Config, s: State, d: DocId) {
    exists t :: CanLead(c, s, t, true) && d in t.docs && t.docs[d].status == Ready
  }

  /** Somebody has counted, and will mark `d` ready with its next step. */
  predicate Marking(s: State, d: DocId) {
    exists w :: w in s.workers && s.workers[w].HasRow() && s.workers[w].Current().doc == d
                && s.workers[w].phase == AtMark
  }

  /** The row is dead, or published and about to be made dead by one of the team. */
  ghost predicate Doomed(s: State, d: DocId, team: set<WorkerId>, r: RowId)
    requires r < |s.rows|
  {
    || s.rows[r].status == DEAD
    || (s.rows[r].status == PUBLISHED
        && exists w :: w in team && w in s.workers && Dooms(s.workers[w], d) && s.workers[w].Current().id == r)
  }

  /** Some workers that will see to it that every row of `d` is published: one of them has a row of `d`, or a
      row of `d` is open, and they can revive every row of `d` that is dead or that one of them makes so. */
  ghost predicate Team(s: State, d: DocId, team: set<WorkerId>) {
    && team <= s.workers.Keys
    && ((exists w :: w in team && HasDoc(s.workers[w], d))
        || exists r :: 0 <= r < |s.rows| && s.rows[r].doc == d && s.rows[r].status == PENDING)
    && forall r :: 0 <= r < |s.rows| && s.rows[r].doc == d && Doomed(s, d, team, r) ==> Revives(s, team, r)
  }

  ghost predicate CanWake(s: State, d: DocId) {
    Marking(s, d) || exists team :: Team(s, d, team)
  }

  // ---- Backward from a ready document ----

  ghost predicate Hope(s: State, d: DocId) {
    d in s.docs && (s.docs[d].status == Ready || (s.docs[d].status == Processing && CanWake(s, d)))
  }

  lemma StaysBatch(c: Config, s: State, e: Event, w: WorkerId)
    requires Enabled(c, s, e) && w in s.workers && w in Apply(c, s, e).workers
    ensures Apply(c, s, e).workers[w].batch == s.workers[w].batch
    ensures Apply(c, s, e).workers[w] == s.workers[w]
         || Apply(c, s, e).workers[w].cursor == s.workers[w].cursor
         || (Apply(c, s, e).workers[w].cursor == s.workers[w].cursor + 1
             && Apply(c, s, e).workers[w].phase == Calling(0) && !s.workers[w].phase.Calling?)
  {
  }

  lemma RevivesBack(c: Config, s: State, e: Event, w: WorkerId, j: nat, r: RowId)
    requires Enabled(c, s, e) && w in s.workers && w in Apply(c, s, e).workers
    requires Has(Apply(c, s, e).workers[w], j, r) && !Spares(Apply(c, s, e).workers[w], j, DEAD, true)
    ensures Has(s.workers[w], j, r) && !Spares(s.workers[w], j, DEAD, true)
  {
    StaysBatch(c, s, e, w);
  }

  lemma HasDocBack(c: Config, s: State, e: Event, w: WorkerId, d: DocId)
    requires Enabled(c, s, e) && w in s.workers && w in Apply(c, s, e).workers
    requires HasDoc(Apply(c, s, e).workers[w], d)
    ensures HasDoc(s.workers[w], d)
  {
    StaysBatch(c, s, e, w);
    var wk := Apply(c, s, e).workers[w];
    var j :| wk.cursor <= j < |wk.batch| && wk.batch[j].doc == d;
    assert s.workers[w].batch[j].doc == d;
  }

  lemma DoomsOn(c: Config, s: State, e: Event, w: WorkerId, d: DocId)
    requires Enabled(c, s, e) && w in s.workers && w in Apply(c, s, e).workers
    requires Dooms(s.workers[w], d) && !(e.FailCommit? && e.w == w)
    ensures Apply(c, s, e).workers[w] == s.workers[w]
  {
  }

  /** The workers of the later state that were there before, and whoever moved. */
  function Before(s: State, e: Event, team: set<WorkerId>): set<WorkerId> {
    set w | w in s.workers && (w in team || (e.Publish? && w == e.w) || (e.FailCommit? && w == e.w))
  }

  /** A claimed row is open. */
  lemma ClaimedOpen(c: Config, s: State, e: Event, w: WorkerId, j: nat)
    requires Enabled(c, s, e) && w !in s.workers && w in Apply(c, s, e).workers
    requires Apply(c, s, e).workers[w].cursor <= j < |Apply(c, s, e).workers[w].batch|
    ensures var snap := Apply(c, s, e).workers[w].batch[j];
            snap.id < |s.rows| && s.rows[snap.id].status == PENDING && s.rows[snap.id].doc == snap.doc
    ensures Apply(c, s, e).rows == s.rows
  {
    assert e.Claim? && s.rows[e.ids[j]].status == PENDING;
  }

  lemma ReviverBack(c: Config, s: State, e: Event, team: set<WorkerId>, r: RowId)
    requires Enabled(c, s, e) && Revives(Apply(c, s, e), team, r) && r < |s.rows| && s.rows[r].status != PENDING
    ensures Revives(s, Before(s, e, team), r)
  {
    var t := Apply(c, s, e);
    var w, j: nat :| w in team && w in t.workers && Has(t.workers[w], j, r) && !Spares(t.workers[w], j, DEAD, true);
    if w in s.workers {
      RevivesBack(c, s, e, w, j, r);
    } else {
      ClaimedOpen(c, s, e, w, j);
      assert false;
    }
  }

  /** The row of a worker that publishes or fails it. */
  lemma MoverRevives(c: Config, s: State, e: Event, team: set<WorkerId>)
    requires Enabled(c, s, e) && (e.Publish? || e.FailCommit?)
    requires e.FailCommit? ==> s.workers[e.w].Current().retry + 1 != MAX_RETRIES
    ensures Revives(s, Before(s, e, team), s.workers[e.w].Current().id)
  {
    var wk := s.workers[e.w];
    assert Has(wk, wk.cursor, wk.Current().id) && !Spares(wk, wk.cursor, DEAD, true);
    assert e.w in Before(s, e, team);
  }

  lemma DoomedBack(c: Config, s: State, e: Event, d: DocId, team: set<WorkerId>, r: RowId)
    requires Inv(c, s) && Enabled(c, s, e) && Team(Apply(c, s, e), d, team)
    requires r < |s.rows| && s.rows[r].doc == d && Doomed(s, d, Before(s, e, team), r)
    requires d in s.docs && d in Apply(c, s, e).docs
    ensures Revives(s, Before(s, e, team), r)
  {
    var t := Apply(c, s, e);
    if (e.Publish? || e.FailCommit?) && s.workers[e.w].Current().id == r {
      if e.Publish? || s.workers[e.w].Current().retry + 1 != MAX_RETRIES {
        MoverRevives(c, s, e, team);
      } else {
        assert t.rows[r].status == DEAD && t.rows[r].doc == d;
        assert Doomed(t, d, team, r);
        ReviverBack(c, s, e, team, r);
      }
    } else {
      assert t.rows[r] == s.rows[r];
      DoomedOn(c, s, e, d, team, r);
      ReviverBack(c, s, e, team, r);
    }
  }

  lemma DoomedOn(c: Config, s: State, e: Event, d: DocId, team: set<WorkerId>, r: RowId)
    requires Enabled(c, s, e) && team <= Apply(c, s, e).workers.Keys
    requires r < |s.rows| && r < |Apply(c, s, e).rows| && Apply(c, s, e).rows[r] == s.rows[r]
    requires !((e.Publish? || e.FailCommit?) && s.workers[e.w].Current().id == r)
    requires Doomed(s, d, Before(s, e, team), r)
    ensures Doomed(Apply(c, s, e), d, team, r)
  {
    var t := Apply(c, s, e);
    if s.rows[r].status == PUBLISHED {
      var w :| w in Before(s, e, team) && w in s.workers && Dooms(s.workers[w], d) && s.workers[w].Current().id == r;
      assert w in team;
      DoomsOn(c, s, e, w, d);
    }
  }

  lemma SomebodyBack(c: Config, s: State, e: Event, d: DocId, team: set<WorkerId>)
    requires Inv(c, s) && Enabled(c, s, e) && Team(Apply(c, s, e), d, team)
    requires d in s.docs && Apply(c, s, e).docs[d].status == Processing
    ensures (exists w :: w in Before(s, e, team) && HasDoc(s.workers[w], d))
         || exists r :: 0 <= r < |s.rows| && s.rows[r].doc == d && s.rows[r].status == PENDING
  {
    var t := Apply(c, s, e);
    if w :| w in team && HasDoc(t.workers[w], d) {
      if w in s.workers {
        HasDocBack(c, s, e, w, d);
        assert w in Before(s, e, team);
      } else {
        var j :| t.workers[w].cursor <= j < |t.workers[w].batch| && t.workers[w].batch[j].doc == d;
        ClaimedOpen(c, s, e, w, j);
      }
    } else {
      var r :| 0 <= r < |t.rows| && t.rows[r].doc == d && t.rows[r].status == PENDING;
      OpenBack(c, s, e, d, team, r);
    }
  }

  lemma OpenBack(c: Config, s: State, e: Event, d: DocId, team: set<WorkerId>, r: RowId)
    requires Inv(c, s) && Enabled(c, s, e) && d in s.docs && Apply(c, s, e).docs[d].status == Processing
    requires r < |Apply(c, s, e).rows| && Apply(c, s, e).rows[r].doc == d && Apply(c, s, e).rows[r].status == PENDING
    ensures (exists w :: w in Before(s, e, team) && HasDoc(s.workers[w], d))
         || (r < |s.rows| && s.rows[r].doc == d && s.rows[r].status == PENDING)
  {
    if e.FailCommit? && s.workers[e.w].Current().id == r {
      var wk := s.workers[e.w];
      assert WorkerOk(s, wk) && SnapOk(s, wk.Current());
      assert wk.batch[wk.cursor].doc == d;
      assert e.w in Before(s, e, team) && HasDoc(wk, d);
    }
  }

  lemma TeamBack(c: Config, s: State, e: Event, d: DocId, team: set<WorkerId>)
    requires Inv(c, s) && Enabled(c, s, e) && Team(Apply(c, s, e), d, team)
    requires d in s.docs && Apply(c, s, e).docs[d].status == Processing
    ensures Team(s, d, Before(s, e, team))
  {
    SomebodyBack(c, s, e, d, team);
    forall r | 0 <= r < |s.rows| && s.rows[r].doc == d && Doomed(s, d, Before(s, e, team), r)
      ensures Revives(s, Before(s, e, team), r)
    {
      DoomedBack(c, s, e, d, team, r);
    }
  }

  /** A count that saw every row published. */
  lemma CounterTeam(s: State, w: WorkerId, d: DocId)
    requires w in s.workers && s.workers[w].HasRow() && s.workers[w].Current().doc == d
    requires s.workers[w].phase == AtCount && AllPublished(s.rows, d)
    ensures Team(s, d, {w})
  {
    var wk := s.workers[w];
    assert wk.batch[wk.cursor].doc == d;
    assert HasDoc(wk, d);
  }

  lemma MarkingBack(c: Config, s: State, e: Event, d: DocId)
    requires Enabled(c, s, e) && Marking(Apply(c, s, e), d)
    ensures Marking(s, d) || exists team :: Team(s, d, team)
  {
    var t := Apply(c, s, e);
    var w :| w in t.workers && t.workers[w].HasRow() && t.workers[w].Current().doc == d && t.workers[w].phase == AtMark;
    if e == Count(w) {
      CounterTeam(s, w, d);
    }
  }

  lemma HopeBack(c: Config, s: State, e: Event, d: DocId)
    requires Inv(c, s) && Enabled(c, s, e) && d in s.docs && Hope(Apply(c, s, e), d)
    ensures Hope(s, d)
  {
    var t := Apply(c, s, e);
    if s.docs[d].status != Ready {
      assert s.docs[d].status == Processing;
      if t.docs[d].status == Ready {
        assert Marking(s, d);
      } else if Marking(t, d) {
        MarkingBack(c, s, e, d);
      } else {
        var team :| Team(t, d, team);
        TeamBack(c, s, e, d, team);
      }
    }
  }

  lemma {:induction false} RunHopeBack(c: Config, s: State, es: seq<Event>, t: State, d: DocId)
    requires Inv(c, s) && Runs(c, s, es, t) && d in s.docs && Hope(t, d)
    ensures Hope(s, d)
    decreases |es|
  {
    if es != [] {
      StepInv(c, s, es[0]);
      StepExtends(c, s, es[0]);
      RunHopeBack(c, Apply(c, s, es[0]), es[1..], t, d);
      HopeBack(c, s, es[0], d);
    }
  }

  /** Without such workers the document is never ready. */
  lemma ReadyNeedsWakers(c: Config, s: State, d: DocId)
    requires Inv(c, s) && d in s.docs && s.docs[d].status == Processing && CanBecomeReady(c, s, d)
    ensures CanWake(s, d)
  {
    var t :| CanLead(c, s, t, true) && d in t.docs && t.docs[d].status == Ready;
    var es :| Runs(c, s, es, t) && Within(es, true);
    assert Hope(t, d);
    RunHopeBack(c, s, es, t, d);
  }
}
