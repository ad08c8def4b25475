/**
How fast one relay worker drains the outbox, whichever handlers fail.
*/
module OutboxDrain {
  import opened OutboxModel
  import opened OutboxSafety
  import opened OutboxRelay
  import opened Arithmetic

  // ---- What a batch does to the rows ----

  function RowAfter(row: Row, fate: Fate): Row {
    if fate == Succeeds then row.(status := PUBLISHED)
    else row.(retry := row.retry + 1, status := FailedStatus(row.retry + 1))
  }

  predicate Progressed(row: Row, row': Row) {
    row' == RowAfter(row, Succeeds) || row' == RowAfter(row, CheckRaises)
  }

  /** The rows in `ids` have progressed, the others are as they were. */
  ghost predicate Effect(rows: seq<Row>, rows': seq<Row>, ids: seq<RowId>) {
    && |rows'| == |rows|
    && (forall k: nat :: k < |rows| && k in ids ==> Progressed(rows[k], rows'[k]))
    && (forall k: nat :: k < |rows| && k !in ids ==> rows'[k] == rows[k])
  }

  predicate Fresh(rows: seq<Row>, snaps: seq<Snap>) {
    && (forall j :: 0 <= j < |snaps| ==> snaps[j].id < |rows| && snaps[j].retry == rows[snaps[j].id].retry)
    && (forall i, j :: 0 <= i < j < |snaps| ==> snaps[i].id != snaps[j].id)
  }

  function Ids(snaps: seq<Snap>): seq<RowId> {
    seq(|snaps|, j requires 0 <= j < |snaps| => snaps[j].id)
  }

  lemma RelayRowEffect(r: Routing, s: State, snap: Snap, fate: Fate)
    requires snap.id < |s.rows| && snap.retry == s.rows[snap.id].retry
    ensures var t := RelayRow(r, s, snap, fate);
            t.rows == s.rows[snap.id := RowAfter(s.rows[snap.id], fate)]
  {
    var t := RelayRow(r, s, snap, fate);
    assert t.rows[snap.id] == RowAfter(s.rows[snap.id], fate);
  }

  lemma TailFresh(rows: seq<Row>, rows': seq<Row>, snaps: seq<Snap>, row: Row)
    requires snaps != [] && Fresh(rows, snaps) && rows' == rows[snaps[0].id := row]
    ensures Fresh(rows', snaps[1..])
    ensures snaps[0].id !in Ids(snaps[1..]) && Ids(snaps) == [snaps[0].id] + Ids(snaps[1..])
  {
    forall j | 0 <= j < |snaps[1..]|
      ensures snaps[1..][j].id < |rows'| && snaps[1..][j].retry == rows'[snaps[1..][j].id].retry
      ensures snaps[1..][j].id != snaps[0].id
    {
      assert snaps[1..][j] == snaps[j + 1];
    }
  }

  /** The effect on one row, then on the others. */
  lemma EffectCons(rows: seq<Row>, mid: seq<Row>, rows': seq<Row>, id: RowId, ids: seq<RowId>, fate: Fate)
    requires id < |rows| && mid == rows[id := RowAfter(rows[id], fate)]
    requires id !in ids && Effect(mid, rows', ids)
    ensures Effect(rows, rows', [id] + ids)
  {
    forall k: nat | k < |rows|
      ensures k in [id] + ids ==> Progressed(rows[k], rows'[k])
      ensures k !in [id] + ids ==> rows'[k] == rows[k]
    {
      assert k in [id] + ids <==> k == id || k in ids;
    }
  }

  lemma {:induction false} RelayRowsEffect(r: Routing, s: State, snaps: seq<Snap>, fate: RowId -> Fate)
    requires InTable(s.rows, snaps) && Fresh(s.rows, snaps)
    ensures Effect(s.rows, RelayRows(r, s, snaps, fate).rows, Ids(snaps))
    decreases |snaps|
  {
    if snaps != [] {
      var snap := snaps[0];
      var u := RelayRow(r, s, snap, fate(snap.id));
      RelayRowEffect(r, s, snap, fate(snap.id));
      TailFresh(s.rows, u.rows, snaps, RowAfter(s.rows[snap.id], fate(snap.id)));
      RelayRowsEffect(r, u, snaps[1..], fate);
      EffectCons(s.rows, u.rows, RelayRows(r, s, snaps, fate).rows, snap.id, Ids(snaps[1..]), fate(snap.id));
    }
  }

  function Claimed(rows: seq<Row>): seq<RowId> {
    OpenFrom(rows, 0, BATCH_LIMIT)
  }

  lemma BatchEffect(r: Routing, s: State, fate: RowId -> Fate)
    ensures Effect(s.rows, RelayBatch(r, s, fate).rows, Claimed(s.rows))
  {
    var snaps := ClaimedSnaps(s);
    RelayRowsEffect(r, s, snaps, fate);
    assert Ids(snaps) == Claimed(s.rows);
  }

  // ---- The measure ----

  function Left(row: Row): nat {
    if row.status == PENDING && row.retry <= MAX_RETRIES then MAX_RETRIES - row.retry else 0
  }

  /** The retries left on the open rows. */
  function Measure(rows: seq<Row>, i: nat): nat
    decreases |rows| - i
  {
    if i >= |rows| then 0 else Left(rows[i]) + Measure(rows, i + 1)
  }

  function OpenCount(rows: seq<Row>, i: nat): nat
    decreases |rows| - i
  {
    if i >= |rows| then 0 else (if rows[i].status == PENDING then 1 else 0) + OpenCount(rows, i + 1)
  }

  ghost predicate EffectFrom(rows: seq<Row>, rows': seq<Row>, i: nat, ids: seq<RowId>) {
    && |rows'| == |rows|
    && (forall k: nat :: i <= k < |rows| && k in ids ==> Progressed(rows[k], rows'[k]))
    && (forall k: nat :: i <= k < |rows| && k !in ids ==> rows'[k] == rows[k])
  }

  ghost predicate RowsOk(rows: seq<Row>) {
    forall k :: 0 <= k < |rows| ==> RetryOk(rows[k])
  }

  lemma LeftFalls(row: Row, row': Row)
    requires RetryOk(row) && row.status == PENDING && Progressed(row, row')
    ensures Left(row') + 1 <= Left(row)
  {
  }

  /** The claim from `i` on, seen from `i + 1` on. */
  lemma EffectTail(rows: seq<Row>, rows': seq<Row>, i: nat, limit: nat) returns (limit': nat)
    requires i < |rows| && EffectFrom(rows, rows', i, OpenFrom(rows, i, limit))
    ensures EffectFrom(rows, rows', i + 1, OpenFrom(rows, i + 1, limit'))
    ensures rows[i].status == PENDING && limit > 0 ==>
              limit' == limit - 1 && Progressed(rows[i], rows'[i])
              && |OpenFrom(rows, i, limit)| == 1 + |OpenFrom(rows, i + 1, limit')|
    ensures !(rows[i].status == PENDING && limit > 0) ==>
              limit' == limit && rows'[i] == rows[i]
              && |OpenFrom(rows, i, limit)| == |OpenFrom(rows, i + 1, limit')|
  {
    var ids := OpenFrom(rows, i, limit);
    if rows[i].status == PENDING && limit > 0 {
      limit' := limit - 1;
      assert ids == [i] + OpenFrom(rows, i + 1, limit') && ids[0] == i;
      assert forall k: nat :: i + 1 <= k ==> (k in ids <==> k in OpenFrom(rows, i + 1, limit'));
    } else {
      limit' := limit;
      assert ids == OpenFrom(rows, i + 1, limit');
      assert i !in ids;
    }
  }

  lemma HeadFalls(row: Row, row': Row, claimed: bool)
    requires if claimed then RetryOk(row) && row.status == PENDING && Progressed(row, row') else row' == row
    ensures Left(row') + (if claimed then 1 else 0) <= Left(row)
    ensures row'.status == PENDING ==> row.status == PENDING
  {
    if claimed {
      LeftFalls(row, row');
    }
  }

  lemma MeasureCons(rows: seq<Row>, rows': seq<Row>, i: nat, one: nat, n: nat)
    requires i < |rows| == |rows'|
    requires Left(rows'[i]) + one <= Left(rows[i]) && (rows'[i].status == PENDING ==> rows[i].status == PENDING)
    requires Measure(rows', i + 1) + n <= Measure(rows, i + 1) && OpenCount(rows', i + 1) <= OpenCount(rows, i + 1)
    ensures Measure(rows', i) + one + n <= Measure(rows, i) && OpenCount(rows', i) <= OpenCount(rows, i)
  {
  }

  lemma {:induction false} MeasureFalls(rows: seq<Row>, rows': seq<Row>, i: nat, limit: nat)
    requires RowsOk(rows) && EffectFrom(rows, rows', i, OpenFrom(rows, i, limit))
    ensures Measure(rows', i) + |OpenFrom(rows, i, limit)| <= Measure(rows, i)
    ensures OpenCount(rows', i) <= OpenCount(rows, i)
    decreases |rows| - i
  {
    if i < |rows| {
      assert RetryOk(rows[i]);
      var limit' := EffectTail(rows, rows', i, limit);
      var claimed := rows[i].status == PENDING && limit > 0;
      HeadFalls(rows[i], rows'[i], claimed);
      MeasureFalls(rows, rows', i + 1, limit');
      MeasureCons(rows, rows', i, if claimed then 1 else 0, |OpenFrom(rows, i + 1, limit')|);
    }
  }

  lemma {:induction false} ClaimSize(rows: seq<Row>, i: nat, limit: nat)
    ensures |OpenFrom(rows, i, limit)| == Min(limit, OpenCount(rows, i))
    decreases |rows| - i
  {
    if i < |rows| {
      ClaimSize(rows, i + 1, if rows[i].status == PENDING && limit > 0 then limit - 1 else limit);
    }
  }

  lemma {:induction false} ClaimHas(rows: seq<Row>, i: nat, limit: nat, k: nat)
    requires limit >= OpenCount(rows, i) && i <= k < |rows| && rows[k].status == PENDING
    ensures k in OpenFrom(rows, i, limit)
    decreases |rows| - i
  {
    if i == k {
      assert OpenFrom(rows, i, limit)[0] == k;
    } else {
      var limit' := if rows[i].status == PENDING then limit - 1 else limit;
      ClaimHas(rows, i + 1, limit', k);
      assert OpenFrom(rows, i, limit) ==
             if rows[i].status == PENDING then [i] + OpenFrom(rows, i + 1, limit') else OpenFrom(rows, i + 1, limit');
    }
  }

  /** One batch lowers the measure by at least its own size, and never opens a row. */
  lemma BatchLowersMeasure(r: Routing, s: State, fate: RowId -> Fate)
    requires Retries(s)
    ensures var t := RelayBatch(r, s, fate);
            && Measure(t.rows, 0) + Min(BATCH_LIMIT, OpenCount(s.rows, 0)) <= Measure(s.rows, 0)
            && OpenCount(t.rows, 0) <= OpenCount(s.rows, 0)
            && Retries(t)
  {
    BatchEffect(r, s, fate);
    var t := RelayBatch(r, s, fate);
    MeasureFalls(s.rows, t.rows, 0, BATCH_LIMIT);
    ClaimSize(s.rows, 0, BATCH_LIMIT);
    forall k | 0 <= k < |t.rows|
      ensures RetryOk(t.rows[k])
    {
      assert RetryOk(s.rows[k]);
      if k in Claimed(s.rows) {
        assert Progressed(s.rows[k], t.rows[k]);
      }
    }
  }

  // ---- Batch after batch ----

  function Batches(r: Routing, s: State, fates: seq<RowId -> Fate>): State
    decreases |fates|
  {
    if fates == [] then s else Batches(r, RelayBatch(r, s, fates[0]), fates[1..])
  }

  predicate AtLeast(rows: seq<Row>, n: nat) {
    forall k :: 0 <= k < |rows| && rows[k].status == PENDING ==> rows[k].retry >= n
  }

  lemma SmallBatchRaisesFloor(r: Routing, s: State, fate: RowId -> Fate, n: nat)
    requires Retries(s) && OpenCount(s.rows, 0) <= BATCH_LIMIT && AtLeast(s.rows, n)
    ensures AtLeast(RelayBatch(r, s, fate).rows, n + 1)
  {
    BatchEffect(r, s, fate);
    var t := RelayBatch(r, s, fate);
    forall k | 0 <= k < |t.rows| && t.rows[k].status == PENDING
      ensures t.rows[k].retry >= n + 1
    {
      if s.rows[k].status == PENDING {
        ClaimHas(s.rows, 0, BATCH_LIMIT, k);
        assert Progressed(s.rows[k], t.rows[k]);
      }
    }
  }

  lemma {:induction false} NoneOpen(rows: seq<Row>, i: nat)
    requires RowsOk(rows) && AtLeast(rows, MAX_RETRIES)
    ensures OpenCount(rows, i) == 0
    decreases |rows| - i
  {
    if i < |rows| {
      assert RetryOk(rows[i]);
      NoneOpen(rows, i + 1);
    }
  }

  lemma {:induction false} SmallDrains(r: Routing, s: State, fates: seq<RowId -> Fate>, n: nat)
    requires Retries(s) && OpenCount(s.rows, 0) <= BATCH_LIMIT && AtLeast(s.rows, n)
    requires n + |fates| >= MAX_RETRIES
    ensures OpenCount(Batches(r, s, fates).rows, 0) == 0
    decreases |fates|
  {
    if fates == [] {
      NoneOpen(s.rows, 0);
    } else {
      BatchLowersMeasure(r, s, fates[0]);
      SmallBatchRaisesFloor(r, s, fates[0], n);
      SmallDrains(r, RelayBatch(r, s, fates[0]), fates[1..], n + 1);
    }
  }

  lemma {:induction false} MeasureDrains(r: Routing, s: State, fates: seq<RowId -> Fate>)
    requires Retries(s) && |fates| >= Measure(s.rows, 0) / BATCH_LIMIT + MAX_RETRIES
    ensures OpenCount(Batches(r, s, fates).rows, 0) == 0
    decreases |fates|
  {
    if OpenCount(s.rows, 0) <= BATCH_LIMIT {
      SmallDrains(r, s, fates, 0);
    } else {
      BatchLowersMeasure(r, s, fates[0]);
      var u := RelayBatch(r, s, fates[0]);
      assert Measure(u.rows, 0) + BATCH_LIMIT <= Measure(s.rows, 0);
      MeasureDrains(r, u, fates[1..]);
    }
  }

  lemma {:induction false} FreshMeasure(rows: seq<Row>, i: nat)
    requires forall k :: 0 <= k < |rows| && rows[k].status == PENDING ==> rows[k].retry == 0
    ensures Measure(rows, i) == MAX_RETRIES * OpenCount(rows, i)
    decreases |rows| - i
  {
    if i < |rows| {
      FreshMeasure(rows, i + 1);
    }
  }

  lemma {:induction false} CountedOut(rows: seq<Row>, i: nat, k: nat)
    requires OpenCount(rows, i) == 0 && i <= k < |rows|
    ensures rows[k].status != PENDING
    decreases |rows| - i
  {
    if i < k {
      CountedOut(rows, i + 1, k);
    }
  }

  /** The relay drains: `n` fresh open rows are all published or dead after `n / 20 + 5` batches
      of one worker, whichever handlers and ready checks raise. */
  lemma RelayDrains(r: Routing, s: State, fates: seq<RowId -> Fate>, n: nat)
    requires Retries(s) && OpenCount(s.rows, 0) == n
    requires forall k :: 0 <= k < |s.rows| && s.rows[k].status == PENDING ==> s.rows[k].retry == 0
    requires |fates| >= n / 20 + 5
    ensures forall k :: 0 <= k < |Batches(r, s, fates).rows| ==>
              Batches(r, s, fates).rows[k].status == PUBLISHED || Batches(r, s, fates).rows[k].status == DEAD
  {
    FreshMeasure(s.rows, 0);
    assert (5 * n) / 100 == n / 20;
    MeasureDrains(r, s, fates);
    var t := Batches(r, s, fates);
    forall k | 0 <= k < |t.rows|
      ensures t.rows[k].status == PUBLISHED || t.rows[k].status == DEAD
    {
      CountedOut(t.rows, 0, k);
    }
  }
}
