/** Short runs that longer ones are put together from. */
module OutboxMoves {
  import opened OutboxModel

  function Snap1(s: State, r: RowId): Snap
    requires r < |s.rows|
  {
    Snap(r, s.rows[r].doc, s.rows[r].op, s.rows[r].retry)
  }

  lemma ClaimOne(c: Config, s: State, w: WorkerId, r: RowId) returns (t: State)
    requires w !in s.workers && r < |s.rows| && s.rows[r].status == PENDING && !HeldByOther(s, w, r)
    ensures Leads(c, s, t)
    ensures t == s.(workers := s.workers[w := Worker([Snap1(s, r)], 0, Calling(0), {r})])
  {
    assert Enabled(c, s, Claim(w, [r]));
    t := Apply(c, s, Claim(w, [r]));
    assert Snapshot(s.rows, [r]) == [Snap1(s, r)];
    assert t.workers[w].held == {r};
    assert t.workers[w] == Worker([Snap1(s, r)], 0, Calling(0), {r});
    LeadsOne(c, s, Claim(w, [r]));
  }

  function Failed(c: Config, s: State, w: WorkerId): State
    requires Busy(s, w)
  {
    var wk := s.workers[w];
    var snap := wk.Current();
    s.(rows := s.rows[snap.id := s.rows[snap.id].(retry := snap.retry + 1,
                                                  status := FailedStatus(snap.retry + 1))],
       workers := s.workers[w := wk.Advance(AfterCommit(c, wk.held))])
  }

  lemma CommitFailure(c: Config, s: State, w: WorkerId)
    requires Busy(s, w) && s.workers[w].phase == Failing
    requires !HeldByOther(s, w, s.workers[w].Current().id)
    ensures Leads(c, s, Failed(c, s, w))
  {
    LeadsOne(c, s, FailCommit(w));
  }

  lemma Raise(c: Config, s: State, w: WorkerId) returns (t: State)
    requires Busy(s, w) && s.workers[w].phase != Failing
    ensures t == s.(workers := s.workers[w := s.workers[w].(phase := Failing)])
    ensures Leads(c, s, t)
  {
    var e := if s.workers[w].phase.Calling? then HandlerFail(w) else MarkFail(w);
    t := Apply(c, s, e);
    LeadsOne(c, s, e);
  }

  /** An exception while a row is worked on, and the retry update it leads to. */
  lemma FailRow(c: Config, s: State, w: WorkerId) returns (t: State)
    requires Busy(s, w) && s.workers[w].phase != Failing
    requires !HeldByOther(s, w, s.workers[w].Current().id)
    ensures Leads(c, s, t) && t == Failed(c, s, w)
  {
    var s1 := Raise(c, s, w);
    assert !HeldByOther(s1, w, s1.workers[w].Current().id);
    t := Failed(c, s1, w);
    CommitFailure(c, s1, w);
    LeadsTrans(c, s, s1, t);
  }

  lemma EndBatch(c: Config, s: State, w: WorkerId) returns (t: State)
    requires w in s.workers && !s.workers[w].HasRow()
    ensures Leads(c, s, t) && t == s.(workers := s.workers - {w})
  {
    t := Apply(c, s, Finish(w));
    LeadsOne(c, s, Finish(w));
  }

  /** A worker at the start of an upsert row makes both calls and commits. */
  lemma Deliver(c: Config, s: State, w: WorkerId) returns (t: State)
    requires Busy(s, w) && s.workers[w].phase == Calling(0) && s.workers[w].Current().op.UpsertChunk?
    requires !HeldByOther(s, w, s.workers[w].Current().id)
    ensures Leads(c, s, t)
    ensures var wk := s.workers[w];
            && t.rows == s.rows[wk.Current().id := s.rows[wk.Current().id].(status := PUBLISHED)]
            && t.workers == s.workers[w := wk.(phase := AtCount, held := AfterCommit(c, wk.held))]
            && t.docs == s.docs
  {
    var s1 := Apply(c, s, Call(w));
    var s2 := Apply(c, s1, Call(w));
    assert forall v :: v in s2.workers && v != w ==> v in s.workers && s2.workers[v] == s.workers[v];
    assert !HeldByOther(s2, w, s2.workers[w].Current().id);
    t := Apply(c, s2, Publish(w));
    LeadsOne(c, s, Call(w));
    LeadsOne(c, s1, Call(w));
    LeadsTrans(c, s, s1, s2);
    LeadsOne(c, s2, Publish(w));
    LeadsTrans(c, s, s2, t);
  }
}
