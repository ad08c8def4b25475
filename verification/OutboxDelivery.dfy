/**
At-least-once delivery has the effect of exactly-once delivery: whatever was repeated,
interleaved or cut short, a fully published document leaves in both stores what one
in-order application of its rows would leave.
*/
module OutboxDelivery {
  import opened OutboxModel
  import opened OutboxSafety

  datatype StorePair = StorePair(qdrant: map<Key, Point>, es: map<Key, EsDoc>)

  /** Each upsert row of `d`, applied once, in table order, to two empty stores. */
  function InOrder(r: Routing, rows: seq<Row>, d: DocId): StorePair {
    if rows == [] then StorePair(map[], map[])
    else
      var before := InOrder(r, rows[..|rows| - 1], d);
      var row := rows[|rows| - 1];
      if row.doc == d && row.op.UpsertChunk? then
        StorePair(before.qdrant[RowKey(r, row) := RowPoint(row)], before.es[RowKey(r, row) := RowEsDoc(row)])
      else before
  }

  /** The part of a store that belongs to `d`. */
  function OfDoc<V>(m: map<Key, V>, d: DocId): map<Key, V> {
    map key | key in m && key.doc == d :: m[key]
  }

  predicate Writes(r: Routing, rows: seq<Row>, d: DocId, id: RowId, key: Key) {
    id < |rows| && rows[id].doc == d && rows[id].op.UpsertChunk? && RowKey(r, rows[id]) == key
  }

  lemma {:induction false} InOrderLast(r: Routing, rows: seq<Row>, d: DocId, id: RowId, key: Key)
    requires Writes(r, rows, d, id, key)
    requires forall j :: id < j < |rows| ==> !Writes(r, rows, d, j, key)
    ensures var p := InOrder(r, rows, d);
            && key in p.qdrant && p.qdrant[key] == RowPoint(rows[id])
            && key in p.es && p.es[key] == RowEsDoc(rows[id])
  {
    if id < |rows| - 1 {
      var before := rows[..|rows| - 1];
      assert !Writes(r, rows, d, |rows| - 1, key);
      assert forall j :: id < j < |before| ==> (Writes(r, before, d, j, key) <==> Writes(r, rows, d, j, key));
      InOrderLast(r, before, d, id, key);
    }
  }

  lemma {:induction false} InOrderOnly(r: Routing, rows: seq<Row>, d: DocId, key: Key)
    requires key in InOrder(r, rows, d).qdrant || key in InOrder(r, rows, d).es
    ensures exists id: RowId :: Writes(r, rows, d, id, key)
  {
    var last := |rows| - 1;
    if !Writes(r, rows, d, last, key) {
      InOrderOnly(r, rows[..last], d, key);
      var id: RowId :| Writes(r, rows[..last], d, id, key);
      assert Writes(r, rows, d, id, key);
    }
  }

  /** No two rows write the same key: the ids are deterministic and distinct. */
  lemma OneWriter(r: Routing, s: State, d: DocId, a: RowId, b: RowId, key: Key)
    requires Tables(s) && Writes(r, s.rows, d, a, key) && Writes(r, s.rows, d, b, key)
    ensures a == b
  {
    assert RowOk(s, a) && RowOk(s, b);
  }

  predicate UpsertsPublished(s: State, d: DocId) {
    forall r :: 0 <= r < |s.rows| && s.rows[r].doc == d && s.rows[r].op.UpsertChunk?
      ==> s.rows[r].status == PUBLISHED
  }

  lemma InOrderOf(r: Routing, s: State, d: DocId, id: RowId, key: Key)
    requires Tables(s) && Writes(r, s.rows, d, id, key)
    ensures var p := InOrder(r, s.rows, d);
            && key in p.qdrant && p.qdrant[key] == RowPoint(s.rows[id])
            && key in p.es && p.es[key] == RowEsDoc(s.rows[id])
  {
    forall j | id < j < |s.rows|
      ensures !Writes(r, s.rows, d, j, key)
    {
      if Writes(r, s.rows, d, j, key) {
        OneWriter(r, s, d, id, j, key);
      }
    }
    InOrderLast(r, s.rows, d, id, key);
  }

  /** What a store holds was written by a row, and holds that row's content. */
  lemma StoredBy(c: Config, s: State, d: DocId, key: Key) returns (id: RowId)
    requires Inv(c, s) && key.doc == d && (key in s.qdrant || key in s.es)
    ensures Writes(c.routing, s.rows, d, id, key)
    ensures key in s.qdrant ==> s.qdrant[key] == RowPoint(s.rows[id])
    ensures key in s.es ==> s.es[key] == RowEsDoc(s.rows[id])
  {
    assert key in s.qdrant ==> PointJustified(c.routing, s, key, s.qdrant[key]);
    assert key in s.es ==> EsJustified(c.routing, s, key, s.es[key]);
    assert KeyJustified(c.routing, s, key);
    id := s.first[d] + key.index;
  }

  lemma WrittenIsStored(c: Config, s: State, d: DocId, id: RowId, key: Key)
    requires Inv(c, s) && Live(s, d) && UpsertsPublished(s, d) && Writes(c.routing, s.rows, d, id, key)
    ensures key in s.qdrant && key in s.es && key.doc == d
  {
    assert Written(s, id) && RowOk(s, id);
    assert ChunkPresent(c, s, d, s.rows[id].op.index);
  }

  lemma DeliveredAt(c: Config, s: State, d: DocId, key: Key)
    requires Inv(c, s) && Live(s, d) && UpsertsPublished(s, d) && key.doc == d
    ensures var p := InOrder(c.routing, s.rows, d);
            && (key in s.qdrant <==> key in p.qdrant) && (key in s.es <==> key in p.es)
            && (key in s.qdrant ==> s.qdrant[key] == p.qdrant[key])
            && (key in s.es ==> s.es[key] == p.es[key])
  {
    if id: RowId :| Writes(c.routing, s.rows, d, id, key) {
      InOrderOf(c.routing, s, d, id, key);
      WrittenIsStored(c, s, d, id, key);
      var other := StoredBy(c, s, d, key);
      OneWriter(c.routing, s, d, id, other, key);
    } else {
      if key in s.qdrant || key in s.es {
        var id := StoredBy(c, s, d, key);
      }
      if key in InOrder(c.routing, s.rows, d).qdrant || key in InOrder(c.routing, s.rows, d).es {
        InOrderOnly(c.routing, s.rows, d, key);
      }
    }
  }

  lemma InOrderDoc(r: Routing, rows: seq<Row>, d: DocId, key: Key)
    requires key in InOrder(r, rows, d).qdrant || key in InOrder(r, rows, d).es
    ensures key.doc == d
  {
    InOrderOnly(r, rows, d, key);
  }

  lemma OfDocIs<V>(m: map<Key, V>, d: DocId, p: map<Key, V>)
    requires forall key: Key :: key in p <==> key in m && key.doc == d
    requires forall key: Key :: key in p ==> p[key] == m[key]
    ensures OfDoc(m, d) == p
  {
  }

  lemma DeliveredKey(c: Config, s: State, d: DocId, key: Key)
    requires Inv(c, s) && Live(s, d) && UpsertsPublished(s, d)
    ensures var p := InOrder(c.routing, s.rows, d);
            && (key in p.qdrant <==> key in s.qdrant && key.doc == d)
            && (key in p.es <==> key in s.es && key.doc == d)
            && (key in p.qdrant ==> p.qdrant[key] == s.qdrant[key])
            && (key in p.es ==> p.es[key] == s.es[key])
  {
    if key.doc == d {
      DeliveredAt(c, s, d, key);
    } else if key in InOrder(c.routing, s.rows, d).qdrant || key in InOrder(c.routing, s.rows, d).es {
      InOrderDoc(c.routing, s.rows, d, key);
      assert false;
    }
  }

  lemma DeliveredOnce(c: Config, s: State, d: DocId)
    requires Inv(c, s) && Live(s, d) && UpsertsPublished(s, d)
    ensures OfDoc(s.qdrant, d) == InOrder(c.routing, s.rows, d).qdrant
    ensures OfDoc(s.es, d) == InOrder(c.routing, s.rows, d).es
  {
    var p := InOrder(c.routing, s.rows, d);
    forall key: Key
      ensures key in p.qdrant <==> key in s.qdrant && key.doc == d
      ensures key in p.es <==> key in s.es && key.doc == d
      ensures key in p.qdrant ==> p.qdrant[key] == s.qdrant[key]
      ensures key in p.es ==> p.es[key] == s.es[key]
    {
      DeliveredKey(c, s, d, key);
    }
    OfDocIs(s.qdrant, d, p.qdrant);
    OfDocIs(s.es, d, p.es);
  }

  /** Effectively once: in every reachable state, for a document with no deletion requested
      whose upsert rows are all published, each store holds exactly the in-order result. */
  lemma EffectivelyOnce(c: Config, s: State, d: DocId)
    requires Reachable(c, s) && Live(s, d) && UpsertsPublished(s, d)
    ensures OfDoc(s.qdrant, d) == InOrder(c.routing, s.rows, d).qdrant
    ensures OfDoc(s.es, d) == InOrder(c.routing, s.rows, d).es
  {
    ReachableInv(c, s);
    DeliveredOnce(c, s, d);
  }
}
