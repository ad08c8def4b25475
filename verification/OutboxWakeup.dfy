/**
Wake-ups: who marks a fully published document ready. The check that does so runs after the
publish commit of each row and in another transaction, so two workers may publish the last two
rows of a document at the same time, or one may die in between.
*/
module OutboxWakeup {
  import opened OutboxModel
  import opened OutboxSafety

  /** The worker has published a row of `d` and has not yet finished the ready check. */
  predicate StandsAtCheck(wk: Worker, d: DocId) {
    wk.HasRow() && wk.Current().doc == d && (wk.phase == AtCount || wk.phase == AtMark)
  }

  /** The worker will put a row of `d` back to open or dead. */
  predicate StandsAtRetry(wk: Worker, d: DocId) {
    wk.HasRow() && wk.Current().doc == d && wk.phase == Failing
  }

  /** `d` waits for nothing but the ready check. */
  predicate AwaitsReady(s: State, d: DocId) {
    d in s.docs && s.docs[d].status == Processing && s.docs[d].chunkCount > 0 && AllPublished(s.rows, d)
  }

  predicate WokenBy(s: State, w: WorkerId, d: DocId, retries: bool) {
    w in s.workers && (StandsAtCheck(s.workers[w], d) || (retries && StandsAtRetry(s.workers[w], d)))
  }

  /** `retries` also counts a worker whose ready check itself failed. */
  ghost predicate NoLostWakeup(s: State, d: DocId, retries: bool) {
    AwaitsReady(s, d) ==> exists w :: WokenBy(s, w, d, retries)
  }

  /** The step takes away the last worker that would wake `d`: it crashes, or, where failed checks
      do not count, its check raises. */
  ghost predicate Loses(s: State, e: Event, d: DocId, retries: bool) {
    && AwaitsReady(s, d)
    && (e.Crash? || (e.MarkFail? && !retries))
    && forall w :: WokenBy(s, w, d, retries) ==> w == e.w
  }

  /** No step of the run does so. Crashes and failed checks of other workers, of other documents'
      workers, and while rows of `d` are open, are all allowed. */
  ghost predicate NeverLoses(c: Config, s: State, es: seq<Event>, d: DocId, retries: bool)
    decreases |es|
  {
    es != [] && Enabled(c, s, es[0]) ==>
      !Loses(s, es[0], d, retries) && NeverLoses(c, Apply(c, s, es[0]), es[1..], d, retries)
  }

  lemma RetryReopens(c: Config, s: State, w: WorkerId)
    requires Workers(s) && Enabled(c, s, FailCommit(w))
    ensures !AllPublished(Apply(c, s, FailCommit(w)).rows, s.workers[w].Current().doc)
  {
    var snap := s.workers[w].Current();
    assert WorkerOk(s, s.workers[w]) && SnapOk(s, snap);
    assert Apply(c, s, FailCommit(w)).rows[snap.id].doc == snap.doc;
  }

  lemma IngestIsOpen(c: Config, s: State, e: Event, d: DocId)
    requires Enabled(c, s, e) && d !in s.docs && d in Apply(c, s, e).docs
    requires Apply(c, s, e).docs[d].chunkCount > 0
    ensures !AllPublished(Apply(c, s, e).rows, d)
  {
    assert e.Ingest? && e.d == d;
    assert Apply(c, s, e).rows[|s.rows|].doc == d;
  }

  /** The rows of `d` were already all published: whoever stood at the check still does. */
  lemma KeepsWakeup(c: Config, s: State, e: Event, d: DocId, w: WorkerId, retries: bool)
    requires Inv(c, s) && Enabled(c, s, e)
    requires (e.Crash? || (e.MarkFail? && !retries)) ==> e.w != w
    requires d in s.docs && AllPublished(s.rows, d) && WokenBy(s, w, d, retries)
    requires AwaitsReady(Apply(c, s, e), d)
    ensures WokenBy(Apply(c, s, e), w, d, retries)
  {
    var t := Apply(c, s, e);
    var wk := s.workers[w];
    assert WorkerOk(s, wk) && SnapOk(s, wk.Current());
    if !e.Ingest? && !e.DeleteDoc? && e.w == w {
      if e.FailCommit? {
        RetryReopens(c, s, w);
        assert false;
      }
    } else {
      assert t.workers[w] == wk;
    }
  }

  /** The step published the last open row of `d`: its worker stands at the check now. */
  lemma GivesWakeup(c: Config, s: State, e: Event, d: DocId)
    requires Inv(c, s) && Enabled(c, s, e) && !AllPublished(s.rows, d)
    requires AllPublished(Apply(c, s, e).rows, d)
    ensures e.Publish? && WokenBy(Apply(c, s, e), e.w, d, false)
  {
    var t := Apply(c, s, e);
    var r :| 0 <= r < |s.rows| && s.rows[r].doc == d && s.rows[r].status != PUBLISHED;
    assert t.rows[r].status == PUBLISHED;
    assert e.Publish?;
    var wk := s.workers[e.w];
    assert WorkerOk(s, wk) && SnapOk(s, wk.Current());
  }

  lemma StepWakeup(c: Config, s: State, e: Event, d: DocId, retries: bool)
    requires Inv(c, s) && NoLostWakeup(s, d, retries) && Enabled(c, s, e) && !Loses(s, e, d, retries)
    requires AwaitsReady(Apply(c, s, e), d)
    ensures exists w :: WokenBy(Apply(c, s, e), w, d, retries)
  {
    var t := Apply(c, s, e);
    if d !in s.docs {
      IngestIsOpen(c, s, e, d);
      assert false;
    } else if AllPublished(s.rows, d) {
      assert AwaitsReady(s, d);
      var w :| WokenBy(s, w, d, retries) && ((e.Crash? || (e.MarkFail? && !retries)) ==> e.w != w);
      KeepsWakeup(c, s, e, d, w, retries);
    } else {
      GivesWakeup(c, s, e, d);
      assert WokenBy(t, e.w, d, retries);
    }
  }

  lemma {:induction false} RunWakeup(c: Config, s: State, es: seq<Event>, t: State, d: DocId, retries: bool)
    requires Inv(c, s) && NoLostWakeup(s, d, retries) && Runs(c, s, es, t)
    requires NeverLoses(c, s, es, d, retries)
    ensures NoLostWakeup(t, d, retries)
    decreases |es|
  {
    if es != [] {
      var u := Apply(c, s, es[0]);
      if AwaitsReady(u, d) {
        StepWakeup(c, s, es[0], d, retries);
      }
      StepInv(c, s, es[0]);
      RunWakeup(c, u, es[1..], t, d, retries);
    }
  }

  /** No lost wake-up: unless the last worker that stood at the check of the document crashed or
      its check raised, then whenever every row of a document with chunks is published and it still
      shows `processing`, some worker stands between its publish commit and its mark-ready update. */
  lemma WakeupNotLost(c: Config, es: seq<Event>, t: State, d: DocId)
    requires Runs(c, INIT, es, t) && AwaitsReady(t, d)
    requires NeverLoses(c, INIT, es, d, false)
    ensures exists w :: w in t.workers && StandsAtCheck(t.workers[w], d)
  {
    RunWakeup(c, INIT, es, t, d, false);
    var w :| WokenBy(t, w, d, false);
  }

  /** A ready check that raises does not lose the wake-up either: its row goes back. */
  lemma WakeupSurvivesMarkFailure(c: Config, es: seq<Event>, t: State, d: DocId)
    requires Runs(c, INIT, es, t) && AwaitsReady(t, d)
    requires NeverLoses(c, INIT, es, d, true)
    ensures exists w :: w in t.workers && (StandsAtCheck(t.workers[w], d) || StandsAtRetry(t.workers[w], d))
  {
    RunWakeup(c, INIT, es, t, d, true);
    var w :| WokenBy(t, w, d, true);
  }

  /** Unless the last worker to wake it crashed, once the workers are idle a document with chunks
      and no deletion requested is ready as soon as all its rows are published. */
  lemma QuiescentReady(c: Config, es: seq<Event>, t: State, d: DocId)
    requires Runs(c, INIT, es, t) && t.workers == map[]
    requires NeverLoses(c, INIT, es, d, true)
    requires d in t.docs && t.docs[d].status != Deleting
    requires t.docs[d].chunkCount > 0 && AllPublished(t.rows, d)
    ensures t.docs[d].status == Ready
  {
    if t.docs[d].status == Processing {
      WakeupSurvivesMarkFailure(c, es, t, d);
    }
  }

  /** The worker at the check needs its next two steps only, whatever it was counting. */
  lemma CheckMarksReady(c: Config, s: State, w: WorkerId, d: DocId)
    requires Inv(c, s) && AwaitsReady(s, d) && w in s.workers && s.workers[w].HasRow()
    requires s.workers[w].Current().doc == d && s.workers[w].phase == AtCount
    ensures Enabled(c, s, Count(w))
    ensures Enabled(c, Apply(c, s, Count(w)), Mark(w))
    ensures Apply(c, Apply(c, s, Count(w)), Mark(w)).docs[d].status == Ready
  {
    assert WorkerOk(s, s.workers[w]) && SnapOk(s, s.workers[w].Current());
  }

  // ---- The wake-up a crash loses ----

  /** Every row published, still `processing`, and no worker has a row of `d` at or ahead of its
      cursor. */
  ghost predicate Stuck(s: State, d: DocId) {
    && AwaitsReady(s, d)
    && forall w, j :: w in s.workers && s.workers[w].cursor <= j < |s.workers[w].batch| ==>
         s.workers[w].batch[j].doc != d
  }

  lemma {:induction false} RunStuck(c: Config, s: State, es: seq<Event>, t: State, d: DocId)
    requires Inv(c, s) && Stuck(s, d) && Runs(c, s, es, t)
    requires DeleteDoc(d) !in es
    ensures Stuck(t, d)
    decreases |es|
  {
    if es != [] {
      var u := Apply(c, s, es[0]);
      StepStuck(c, s, es[0], d);
      StepInv(c, s, es[0]);
      RunStuck(c, u, es[1..], t, d);
    }
  }

  /** A stuck document stays in `processing` over every run that does not delete it: no later
      batch, check or ingest wakes it. */
  lemma StuckForever(c: Config, s: State, es: seq<Event>, t: State, d: DocId)
    requires Reachable(c, s) && Stuck(s, d) && Runs(c, s, es, t)
    requires DeleteDoc(d) !in es
    ensures Stuck(t, d)
  {
    ReachableInv(c, s);
    RunStuck(c, s, es, t, d);
  }

  lemma StepStuck(c: Config, s: State, e: Event, d: DocId)
    requires Inv(c, s) && Stuck(s, d) && Enabled(c, s, e) && e != DeleteDoc(d)
    ensures Stuck(Apply(c, s, e), d)
  {
    var t := Apply(c, s, e);
    forall w, j | w in t.workers && t.workers[w].cursor <= j < |t.workers[w].batch|
      ensures t.workers[w].batch[j].doc != d
    {
      if w in s.workers {
        assert t.workers[w].batch == s.workers[w].batch;
      } else {
        assert e.Claim? && s.rows[e.ids[j]].status == PENDING;
      }
    }
    if e.Publish? || e.FailCommit? || e.Mark? {
      assert s.workers[e.w].Current().doc != d;
      assert WorkerOk(s, s.workers[e.w]) && SnapOk(s, s.workers[e.w].Current());
    }
  }

  /** A document ingested with no chunks has no row whose publication could mark it: it is
      never ready, in any run. */
  lemma EmptyNeverReady(c: Config, s: State, d: DocId)
    requires Reachable(c, s) && d in s.docs && s.docs[d].chunkCount == 0
    ensures s.docs[d].status != Ready
  {
    ReachableInv(c, s);
  }
}
