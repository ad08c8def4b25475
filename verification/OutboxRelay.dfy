/**
The relay task itself, as one worker runs it: a loop over the claimed rows that updates the
outbox and the documents in place and writes both stores. Each method is proved against a
function on the state, and the batch is proved to be a run of the step system.
*/
module OutboxRelay {
  import opened OutboxModel
  import opened OutboxSafety
  import opened Arithmetic

  /** How the work on one row turns out; the outside world decides.
      HandlerRaises: an exception when `after` calls (all, if there are fewer) took effect.
      CheckRaises: an exception in the ready check, after the publish commit. */
  datatype Fate = Succeeds | HandlerRaises(after: nat) | CheckRaises

  // ---- The batch as a function ----

  /** The first `n` external calls of a row's handler. */
  function Calls(r: Routing, s: State, snap: Snap, n: nat): State {
    if n == 0 then s else DoCall(r, Calls(r, s, snap, n - 1), snap, n - 1)
  }

  function Published(s: State, id: RowId): State
    requires id < |s.rows|
  {
    s.(rows := s.rows[id := s.rows[id].(status := PUBLISHED)])
  }

  function Retried(s: State, snap: Snap): State
    requires snap.id < |s.rows|
  {
    s.(rows := s.rows[snap.id := s.rows[snap.id].(retry := snap.retry + 1,
                                                  status := FailedStatus(snap.retry + 1))])
  }

  function ReadyChecked(s: State, d: DocId): State {
    if AllPublished(s.rows, d) then s.(docs := MarkReady(s, d)) else s
  }

  /** One row, from its handler to its last commit. */
  function RelayRow(r: Routing, s: State, snap: Snap, fate: Fate): (t: State)
    requires snap.id < |s.rows|
    ensures t.rows == if fate == Succeeds then Published(s, snap.id).rows else
                      Retried(if fate == CheckRaises then Published(s, snap.id) else s, snap).rows
    ensures t.first == s.first && t.workers == s.workers
  {
    CallsFrame(r, s, snap, CallsOf(s, snap));
    match fate
    case Succeeds =>
      ReadyChecked(Published(Calls(r, s, snap, CallsOf(s, snap)), snap.id), snap.doc)
    case HandlerRaises(after) =>
      CallsFrame(r, s, snap, Min(after, CallsOf(s, snap)));
      Retried(Calls(r, s, snap, Min(after, CallsOf(s, snap))), snap)
    case CheckRaises =>
      Retried(Published(Calls(r, s, snap, CallsOf(s, snap)), snap.id), snap)
  }

  lemma {:induction false} CallsFrame(r: Routing, s: State, snap: Snap, n: nat)
    ensures var t := Calls(r, s, snap, n);
            t.rows == s.rows && t.docs == s.docs && t.first == s.first && t.workers == s.workers
  {
    if n > 0 {
      CallsFrame(r, s, snap, n - 1);
    }
  }

  predicate InTable(rows: seq<Row>, snaps: seq<Snap>) {
    forall j :: 0 <= j < |snaps| ==> snaps[j].id < |rows|
  }

  function RelayRows(r: Routing, s: State, snaps: seq<Snap>, fate: RowId -> Fate): State
    requires InTable(s.rows, snaps)
    decreases |snaps|
  {
    if snaps == [] then s
    else RelayRows(r, RelayRow(r, s, snaps[0], fate(snaps[0].id)), snaps[1..], fate)
  }

  /** `WHERE status = 'PENDING' ORDER BY created_at LIMIT limit`, from row `i` on. */
  function OpenFrom(rows: seq<Row>, i: nat, limit: nat): (ids: seq<RowId>)
    ensures |ids| <= limit
    ensures forall j :: 0 <= j < |ids| ==> i <= ids[j] < |rows| && rows[ids[j]].status == PENDING
    ensures forall j, k :: 0 <= j < k < |ids| ==> ids[j] < ids[k]
    decreases |rows| - i
  {
    if i >= |rows| || limit == 0 then []
    else if rows[i].status == PENDING then [i] + OpenFrom(rows, i + 1, limit - 1)
    else OpenFrom(rows, i + 1, limit)
  }

  /** What a batch leaves waits for its turn: an open row that is not selected comes after the 100 that are. */
  lemma SelectsFirst(rows: seq<Row>, r: RowId)
    requires r < |rows| && rows[r].status == PENDING
    ensures var ids := OpenFrom(rows, 0, BATCH_LIMIT);
            && |ids| <= 100
            && (r !in ids ==> |ids| == 100 && forall j :: 0 <= j < |ids| ==> ids[j] < r)
  {
    OpenFromFirst(rows, 0, BATCH_LIMIT, r);
  }

  lemma {:induction false} OpenFromFirst(rows: seq<Row>, i: nat, limit: nat, r: RowId)
    requires i <= r < |rows| && rows[r].status == PENDING
    ensures var ids := OpenFrom(rows, i, limit);
            r !in ids ==> |ids| == limit && forall j :: 0 <= j < |ids| ==> ids[j] < r
    decreases |rows| - i
  {
    if limit > 0 && i < r {
      OpenFromFirst(rows, i + 1, if rows[i].status == PENDING then limit - 1 else limit, r);
    }
  }

  function ClaimedSnaps(s: State): (snaps: seq<Snap>)
    ensures InTable(s.rows, snaps)
  {
    Snapshot(s.rows, OpenFrom(s.rows, 0, BATCH_LIMIT))
  }

  function RelayBatch(r: Routing, s: State, fate: RowId -> Fate): State {
    RelayRows(r, s, ClaimedSnaps(s), fate)
  }

  // ---- The relay, in place ----

  class Relay {
    var docs: map<DocId, Doc>
    var rows: seq<Row>
    var qdrant: map<Key, Point>
    var es: map<Key, EsDoc>
    ghost var first: map<DocId, RowId>
    const routing: Routing

    constructor (routing: Routing)
      ensures Now() == INIT && this.routing == routing
    {
      docs, rows, qdrant, es, first := map[], [], map[], map[], map[];
      this.routing := routing;
    }

    ghost function Now(): State
      reads this
    {
      State(docs, rows, qdrant, es, map[], first)
    }

    method HandleUpsertChunk(snap: Snap, fate: Fate) returns (raised: bool)
      requires snap.op.UpsertChunk?
      modifies this`qdrant, this`es
      ensures raised == fate.HandlerRaises?
      ensures Now() == Calls(routing, old(Now()), snap, if raised then Min(fate.after, 2) else 2)
    {
      raised := fate.HandlerRaises?;
      if raised && fate.after == 0 {
        return;
      }
      var key := UpsertKey(routing, snap.doc, snap.op);
      qdrant := qdrant[key := Point(snap.op.text, snap.op.metadata)];
      assert Now() == Calls(routing, old(Now()), snap, 1);
      if raised && fate.after == 1 {
        return;
      }
      es := es[key := EsDoc(snap.op.text, snap.op.index)];
    }

    method HandleDeleteChunks(snap: Snap, fate: Fate) returns (raised: bool)
      requires snap.op.DeleteChunks? && snap.doc in docs
      modifies this`qdrant, this`es
      ensures raised == fate.HandlerRaises?
      ensures Now() == Calls(routing, old(Now()), snap,
                             if raised then Min(fate.after, CallsOf(old(Now()), snap)) else CallsOf(old(Now()), snap))
    {
      raised := fate.HandlerRaises?;
      var chunkCount := docs[snap.doc].chunkCount;
      if raised && fate.after == 0 {
        return;
      }
      var coll := DeleteCollection(routing, snap.op.user);
      qdrant := qdrant - DocKeys(coll, snap.doc, chunkCount);
      assert Now() == Calls(routing, old(Now()), snap, 1);
      var i := 0;
      while i < chunkCount && !(raised && fate.after == i + 1)
        invariant 0 <= i <= chunkCount
        invariant raised ==> i + 1 <= fate.after
        invariant docs == old(docs) && rows == old(rows) && first == old(first)
        invariant Now() == Calls(routing, old(Now()), snap, i + 1)
      {
        es := es - {Key(coll, snap.doc, i)};
        assert Now() == DoCall(routing, Calls(routing, old(Now()), snap, i + 1), snap, i + 1);
        i := i + 1;
      }
    }

    method MaybeMarkDocumentReady(d: DocId)
      modifies this`docs
      ensures Now() == ReadyChecked(old(Now()), d)
    {
      var remaining := 0;
      var i := 0;
      while i < |rows|
        invariant 0 <= i <= |rows|
        invariant remaining == 0 <==> forall r :: 0 <= r < i && rows[r].doc == d ==> rows[r].status == PUBLISHED
        invariant remaining >= 0
      {
        if rows[i].doc == d && rows[i].status != PUBLISHED {
          remaining := remaining + 1;
        }
        i := i + 1;
      }
      if remaining == 0 {
        if d in docs && docs[d].status == Processing {
          docs := docs[d := docs[d].(status := Ready)];
        }
      }
    }

    method RelayOne(snap: Snap, fate: Fate)
      requires snap.id < |rows| && (snap.op.DeleteChunks? ==> snap.doc in docs)
      modifies this
      ensures Now() == RelayRow(routing, old(Now()), snap, fate)
    {
      var raised: bool;
      if snap.op.UpsertChunk? {
        raised := HandleUpsertChunk(snap, fate);
      } else {
        raised := HandleDeleteChunks(snap, fate);
      }
      if !raised {
        rows := rows[snap.id := rows[snap.id].(status := PUBLISHED)];
        if fate == CheckRaises {
          raised := true;
        } else {
          MaybeMarkDocumentReady(snap.doc);
        }
      }
      if raised {
        var newCount := snap.retry + 1;
        var status := if newCount >= MAX_RETRIES then DEAD else PENDING;
        rows := rows[snap.id := rows[snap.id].(retry := newCount, status := status)];
      }
    }

    method Select() returns (ids: seq<RowId>)
      ensures ids == OpenFrom(rows, 0, BATCH_LIMIT)
    {
      ids := [];
      var i := 0;
      while i < |rows| && |ids| < BATCH_LIMIT
        invariant 0 <= i <= |rows| && |ids| <= BATCH_LIMIT
        invariant OpenFrom(rows, 0, BATCH_LIMIT) == ids + OpenFrom(rows, i, BATCH_LIMIT - |ids|)
      {
        if rows[i].status == PENDING {
          ids := ids + [i];
        }
        i := i + 1;
      }
    }

    method RelayOutboxBatch(fate: RowId -> Fate)
      requires KnownDocs(docs.Keys, rows)
      modifies this
      ensures Now() == RelayBatch(routing, old(Now()), fate)
    {
      var ids := Select();
      var snaps := Snapshot(rows, ids);
      RelayAll(snaps, fate);
    }

    method RelayAll(snaps: seq<Snap>, fate: RowId -> Fate)
      requires InTable(rows, snaps)
      requires forall j :: 0 <= j < |snaps| ==> snaps[j].doc in docs
      modifies this
      ensures Now() == RelayRows(routing, old(Now()), snaps, fate)
    {
      ghost var start := Now();
      assert snaps[0..] == snaps;
      var j := 0;
      while j < |snaps|
        invariant 0 <= j <= |snaps|
        invariant InTable(rows, snaps) && InTable(rows, snaps[j..])
        invariant docs.Keys == start.docs.Keys
        invariant RelayRows(routing, Now(), snaps[j..], fate) == RelayRows(routing, start, snaps, fate)
      {
        RelayRowsUnfold(routing, Now(), snaps, j, fate);
        RelayRowDocs(routing, Now(), snaps[j], fate(snaps[j].id));
        RelayOne(snaps[j], fate(snaps[j].id));
        j := j + 1;
      }
      assert snaps[j..] == [];
    }
  }

  /** Every row's document exists. */
  predicate KnownDocs(docs: set<DocId>, rows: seq<Row>) {
    forall r :: 0 <= r < |rows| ==> rows[r].doc in docs
  }

  lemma RelayRowsUnfold(r: Routing, s: State, snaps: seq<Snap>, j: nat, fate: RowId -> Fate)
    requires j < |snaps| && InTable(s.rows, snaps)
    ensures InTable(s.rows, snaps[j..]) && InTable(s.rows, snaps[j + 1..])
    ensures RelayRows(r, s, snaps[j..], fate)
         == RelayRows(r, RelayRow(r, s, snaps[j], fate(snaps[j].id)), snaps[j + 1..], fate)
  {
    assert snaps[j..][0] == snaps[j] && snaps[j..][1..] == snaps[j + 1..];
  }

  lemma RelayRowDocs(r: Routing, s: State, snap: Snap, fate: Fate)
    requires snap.id < |s.rows|
    ensures RelayRow(r, s, snap, fate).docs.Keys == s.docs.Keys
  {
    CallsFrame(r, s, snap, CallsOf(s, snap));
    if fate.HandlerRaises? {
      CallsFrame(r, s, snap, Min(fate.after, CallsOf(s, snap)));
    }
  }

  // ---- A batch is a run of the step system ----

  /** The state while worker 0 is at row `j`, its handler not yet called. */
  function AtRow(s: State, snaps: seq<Snap>, j: nat, held: set<RowId>): State {
    s.(workers := map[0 := Worker(snaps, j, Calling(0), held)])
  }

  function InPhase(s: State, snaps: seq<Snap>, j: nat, phase: Phase, held: set<RowId>): State {
    s.(workers := map[0 := Worker(snaps, j, phase, held)])
  }

  lemma CallRun(c: Config, s: State, snaps: seq<Snap>, j: nat, held: set<RowId>, k: nat)
    requires j < |snaps| && snaps[j].id < |s.rows| && k < CallsOf(s, snaps[j])
    ensures Leads(c, InPhase(s, snaps, j, Calling(k), held),
                  InPhase(DoCall(c.routing, s, snaps[j], k), snaps, j, Calling(k + 1), held))
  {
    var u := InPhase(s, snaps, j, Calling(k), held);
    var v := InPhase(DoCall(c.routing, s, snaps[j], k), snaps, j, Calling(k + 1), held);
    assert Enabled(c, u, Call(0));
    assert Apply(c, u, Call(0)).workers == v.workers;
    assert Apply(c, u, Call(0)) == v;
    LeadsOne(c, u, Call(0));
  }

  lemma {:induction false} CallsRun(c: Config, s: State, snaps: seq<Snap>, j: nat, held: set<RowId>, n: nat)
    requires j < |snaps| && snaps[j].id < |s.rows| && n <= CallsOf(s, snaps[j])
    ensures Leads(c, AtRow(s, snaps, j, held),
                  InPhase(Calls(c.routing, s, snaps[j], n), snaps, j, Calling(n), held))
  {
    var from := AtRow(s, snaps, j, held);
    if n == 0 {
      assert Runs(c, from, [], from);
    } else {
      CallsRun(c, s, snaps, j, held, n - 1);
      CallsFrame(c.routing, s, snaps[j], n - 1);
      var before := Calls(c.routing, s, snaps[j], n - 1);
      CallRun(c, before, snaps, j, held, n - 1);
      LeadsTrans(c, from, InPhase(before, snaps, j, Calling(n - 1), held),
                 InPhase(Calls(c.routing, s, snaps[j], n), snaps, j, Calling(n), held));
    }
  }

  lemma RaiseRun(c: Config, s: State, snaps: seq<Snap>, j: nat, phase: Phase, held: set<RowId>)
    requires j < |snaps| && snaps[j].id < |s.rows| && (phase.Calling? || phase == AtCount)
    ensures Leads(c, InPhase(s, snaps, j, phase, held), InPhase(s, snaps, j, Failing, held))
  {
    var from := InPhase(s, snaps, j, phase, held);
    var e := if phase.Calling? then HandlerFail(0) else MarkFail(0);
    LeadsOne(c, from, e);
    assert Apply(c, from, e).workers == InPhase(s, snaps, j, Failing, held).workers;
  }

  /** From the raised exception to the next row. */
  lemma FailRun(c: Config, s: State, snaps: seq<Snap>, j: nat, phase: Phase, held: set<RowId>)
    requires j < |snaps| && snaps[j].id < |s.rows| && (phase.Calling? || phase == AtCount)
    ensures Leads(c, InPhase(s, snaps, j, phase, held),
                  AtRow(Retried(s, snaps[j]), snaps, j + 1, AfterCommit(c, held)))
  {
    RaiseRun(c, s, snaps, j, phase, held);
    var u := InPhase(s, snaps, j, Failing, held);
    var v := AtRow(Retried(s, snaps[j]), snaps, j + 1, AfterCommit(c, held));
    assert Enabled(c, u, FailCommit(0));
    assert Apply(c, u, FailCommit(0)).workers == v.workers;
    assert Apply(c, u, FailCommit(0)) == v;
    LeadsOne(c, u, FailCommit(0));
    LeadsTrans(c, InPhase(s, snaps, j, phase, held), u, v);
  }

  lemma PublishRun(c: Config, s: State, snaps: seq<Snap>, j: nat, held: set<RowId>)
    requires j < |snaps| && snaps[j].id < |s.rows|
    ensures Leads(c, InPhase(s, snaps, j, Calling(CallsOf(s, snaps[j])), held),
                  InPhase(Published(s, snaps[j].id), snaps, j, AtCount, AfterCommit(c, held)))
  {
    var from := InPhase(s, snaps, j, Calling(CallsOf(s, snaps[j])), held);
    assert Enabled(c, from, Publish(0));
    LeadsOne(c, from, Publish(0));
    assert Apply(c, from, Publish(0)).workers
        == InPhase(Published(s, snaps[j].id), snaps, j, AtCount, AfterCommit(c, held)).workers;
  }

  lemma CountRun(c: Config, s: State, snaps: seq<Snap>, j: nat, held: set<RowId>)
    requires j < |snaps| && snaps[j].id < |s.rows|
    ensures Leads(c, InPhase(s, snaps, j, AtCount, held),
                  if AllPublished(s.rows, snaps[j].doc) then InPhase(s, snaps, j, AtMark, held)
                  else AtRow(s, snaps, j + 1, held))
  {
    var from := InPhase(s, snaps, j, AtCount, held);
    var to := if AllPublished(s.rows, snaps[j].doc) then InPhase(s, snaps, j, AtMark, held)
              else AtRow(s, snaps, j + 1, held);
    assert Apply(c, from, Count(0)).workers == to.workers;
    LeadsOne(c, from, Count(0));
  }

  lemma MarkRun(c: Config, s: State, snaps: seq<Snap>, j: nat, held: set<RowId>)
    requires j < |snaps| && snaps[j].id < |s.rows|
    ensures Leads(c, InPhase(s, snaps, j, AtMark, held),
                  AtRow(s.(docs := MarkReady(s, snaps[j].doc)), snaps, j + 1, AfterCommit(c, held)))
  {
    var from := InPhase(s, snaps, j, AtMark, held);
    var to := AtRow(s.(docs := MarkReady(s, snaps[j].doc)), snaps, j + 1, AfterCommit(c, held));
    assert Apply(c, from, Mark(0)).workers == to.workers;
    assert Apply(c, from, Mark(0)) == to;
    LeadsOne(c, from, Mark(0));
  }

  lemma CheckRun(c: Config, s: State, snaps: seq<Snap>, j: nat, held: set<RowId>) returns (held': set<RowId>)
    requires j < |snaps| && snaps[j].id < |s.rows|
    ensures Leads(c, InPhase(s, snaps, j, AtCount, held),
                  AtRow(ReadyChecked(s, snaps[j].doc), snaps, j + 1, held'))
  {
    CountRun(c, s, snaps, j, held);
    held' := held;
    if AllPublished(s.rows, snaps[j].doc) {
      held' := AfterCommit(c, held);
      MarkRun(c, s, snaps, j, held);
      LeadsTrans(c, InPhase(s, snaps, j, AtCount, held), InPhase(s, snaps, j, AtMark, held),
                 AtRow(ReadyChecked(s, snaps[j].doc), snaps, j + 1, held'));
    }
  }

  lemma RowRun(c: Config, s: State, snaps: seq<Snap>, j: nat, held: set<RowId>, fate: Fate)
    returns (held': set<RowId>)
    requires j < |snaps| && snaps[j].id < |s.rows|
    ensures Leads(c, AtRow(s, snaps, j, held),
                  AtRow(RelayRow(c.routing, s, snaps[j], fate), snaps, j + 1, held'))
  {
    var snap := snaps[j];
    var from := AtRow(s, snaps, j, held);
    var all := CallsOf(s, snap);
    var n := if fate.HandlerRaises? then Min(fate.after, all) else all;
    CallsRun(c, s, snaps, j, held, n);
    CallsFrame(c.routing, s, snap, n);
    var called := Calls(c.routing, s, snap, n);
    var u := InPhase(called, snaps, j, Calling(n), held);
    held' := AfterCommit(c, held);
    if fate.HandlerRaises? {
      FailRun(c, called, snaps, j, Calling(n), held);
      LeadsTrans(c, from, u, AtRow(Retried(called, snap), snaps, j + 1, held'));
    } else {
      PublishRun(c, called, snaps, j, held);
      var v := InPhase(Published(called, snap.id), snaps, j, AtCount, held');
      LeadsTrans(c, from, u, v);
      if fate == CheckRaises {
        FailRun(c, Published(called, snap.id), snaps, j, AtCount, held');
        held' := AfterCommit(c, held');
      } else {
        held' := CheckRun(c, Published(called, snap.id), snaps, j, held');
      }
      LeadsTrans(c, from, v, AtRow(RelayRow(c.routing, s, snap, fate), snaps, j + 1, held'));
    }
  }

  lemma {:induction false} RowsRun(c: Config, s: State, snaps: seq<Snap>, j: nat, held: set<RowId>,
                                   fate: RowId -> Fate) returns (held': set<RowId>)
    requires j <= |snaps| && InTable(s.rows, snaps) && InTable(s.rows, snaps[j..])
    ensures Leads(c, AtRow(s, snaps, j, held),
                  AtRow(RelayRows(c.routing, s, snaps[j..], fate), snaps, |snaps|, held'))
    decreases |snaps| - j
  {
    var from := AtRow(s, snaps, j, held);
    held' := held;
    if j == |snaps| {
      assert Runs(c, from, [], from);
    } else {
      var next := RelayRow(c.routing, s, snaps[j], fate(snaps[j].id));
      held' := RowRun(c, s, snaps, j, held, fate(snaps[j].id));
      var mid := AtRow(next, snaps, j + 1, held');
      held' := RowsRun(c, next, snaps, j + 1, held', fate);
      assert snaps[j..][0] == snaps[j] && snaps[j..][1..] == snaps[j + 1..];
      LeadsTrans(c, from, mid, AtRow(RelayRows(c.routing, s, snaps[j..], fate), snaps, |snaps|, held'));
    }
  }

  lemma {:induction false} RelayRowsFrame(r: Routing, s: State, snaps: seq<Snap>, fate: RowId -> Fate)
    requires InTable(s.rows, snaps)
    ensures RelayRows(r, s, snaps, fate).workers == s.workers
    decreases |snaps|
  {
    if snaps != [] {
      RelayRowsFrame(r, RelayRow(r, s, snaps[0], fate(snaps[0].id)), snaps[1..], fate);
    }
  }

  /** Whatever the outside world does, the batch the relay computes is a run of the step system,
      under either discipline: every theorem about all runs holds of it. */
  lemma BatchIsRun(c: Config, s: State, fate: RowId -> Fate)
    requires s.workers == map[]
    ensures Leads(c, s, RelayBatch(c.routing, s, fate))
  {
    var ids := OpenFrom(s.rows, 0, BATCH_LIMIT);
    var snaps := ClaimedSnaps(s);
    var held := set id | id in ids;
    var claimed := Apply(c, s, Claim(0, ids));
    assert claimed.workers == AtRow(s, snaps, 0, held).workers;
    LeadsOne(c, s, Claim(0, ids));
    var t := RelayBatch(c.routing, s, fate);
    assert snaps[0..] == snaps;
    var held' := RowsRun(c, s, snaps, 0, held, fate);
    var done := AtRow(t, snaps, |snaps|, held');
    LeadsTrans(c, s, claimed, done);
    RelayRowsFrame(c.routing, s, snaps, fate);
    LeadsOne(c, done, Finish(0));
    assert Apply(c, done, Finish(0)).workers == map[];
    LeadsTrans(c, s, done, t);
  }
}
