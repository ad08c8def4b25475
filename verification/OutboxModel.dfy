/**
The transactional outbox as a step system: ingest and delete commit rows into Postgres,
any number of relay workers claim batches and write to two stores that share no transaction
with Postgres or with each other. One event is one step that is atomic in the deployed
system: a database commit, one call to Qdrant or Elasticsearch, or one query.
*/
module OutboxModel {

  type UserId = nat
  type DocId = nat
  type RowId = nat
  type WorkerId = nat
  type Metadata = map<string, string>

  const MAX_RETRIES: nat := 5
  const BATCH_LIMIT: nat := 100

  // ---- Postgres ----

  datatype RowStatus = PENDING | PUBLISHED | DEAD

  datatype Op =
    | UpsertChunk(index: nat, text: string, metadata: Metadata, user: UserId)
    | DeleteChunks(user: UserId)

  datatype Row = Row(doc: DocId, op: Op, status: RowStatus, retry: nat)

  datatype DocStatus = Processing | Ready | Deleting

  datatype Doc = Doc(user: UserId, status: DocStatus, chunkCount: nat)

  // ---- Qdrant and Elasticsearch ----

  /** A collection (index) name: a literal one, or the one abstract name of a user. */
  datatype Collection = Named(name: string) | OfUser(user: UserId)

  /** `doc` and `index` stand for `uuid5(doc, str(index))`, taken as injective. */
  datatype Key = Key(coll: Collection, doc: DocId, index: nat)

  /** `text` stands for its embedding: the model is deterministic. */
  datatype Point = Point(text: string, metadata: Metadata)

  datatype EsDoc = EsDoc(text: string, chunkIndex: nat)

  // ---- Configuration ----

  /** BatchLocks: claimed rows stay locked until the batch ends.
      PerRowCommit: the first commit of the batch releases them all, as the code does. */
  datatype Discipline = BatchLocks | PerRowCommit

  /** AsCoded: the literal names of the two handlers. PerUser: one name per user in both. */
  datatype Routing = AsCoded | PerUser

  datatype Config = Config(locks: Discipline, routing: Routing)

  function UserHash(m: Metadata): string {
    if "user_hash" in m then m["user_hash"] else "default"
  }

  function UpsertCollection(r: Routing, m: Metadata, user: UserId): Collection {
    match r
    case AsCoded => Named("user_docs_" + UserHash(m))
    case PerUser => OfUser(user)
  }

  function DeleteCollection(r: Routing, user: UserId): Collection {
    match r
    case AsCoded => Named("user_docs")
    case PerUser => OfUser(user)
  }

  // ---- Workers ----

  /** What a worker remembers of a claimed row. */
  datatype Snap = Snap(id: RowId, doc: DocId, op: Op, retry: nat)

  /** Calling(k): k external calls of the current row's handler are done.
      AtCount, AtMark: after the publish commit, before and after counting open rows.
      Failing: an exception was raised, its retry update is not yet committed. */
  datatype Phase = Calling(calls: nat) | AtCount | AtMark | Failing

  datatype Worker = Worker(batch: seq<Snap>, cursor: nat, phase: Phase, held: set<RowId>) {
    predicate HasRow() { cursor < |batch| }

    function Current(): Snap
      requires HasRow()
    { batch[cursor] }

    function Advance(held': set<RowId>): Worker {
      Worker(batch, cursor + 1, Calling(0), held')
    }
  }

  /** `first` is a history variable no step reads: the id of a document's first row. */
  datatype State = State(
    docs: map<DocId, Doc>,
    rows: seq<Row>,
    qdrant: map<Key, Point>,
    es: map<Key, EsDoc>,
    workers: map<WorkerId, Worker>,
    first: map<DocId, RowId>)

  const INIT := State(map[], [], map[], map[], map[], map[])

  datatype Event =
    | Ingest(d: DocId, user: UserId, metadata: Metadata, chunks: seq<string>)
    | DeleteDoc(d: DocId)
    | Claim(w: WorkerId, ids: seq<RowId>)
    | Call(w: WorkerId)
    | Publish(w: WorkerId)
    | Count(w: WorkerId)
    | Mark(w: WorkerId)
    | HandlerFail(w: WorkerId)
    | MarkFail(w: WorkerId)
    | FailCommit(w: WorkerId)
    | Finish(w: WorkerId)
    | Crash(w: WorkerId)

  // ---- External calls ----

  function UpsertKey(r: Routing, d: DocId, op: Op): Key
    requires op.UpsertChunk?
  {
    Key(UpsertCollection(r, op.metadata, op.user), d, op.index)
  }

  /** The ids the delete handler recomputes from the document's chunk count. */
  function DocKeys(c: Collection, d: DocId, n: nat): set<Key> {
    set i | 0 <= i < n :: Key(c, d, i)
  }

  function ChunkCount(s: State, d: DocId): nat {
    if d in s.docs then s.docs[d].chunkCount else 0
  }

  /** Upsert: one Qdrant and one Elasticsearch call. Delete: one bulk Qdrant call and one
      Elasticsearch call per chunk. */
  function CallsOf(s: State, snap: Snap): nat {
    match snap.op
    case UpsertChunk(_, _, _, _) => 2
    case DeleteChunks(_) => 1 + ChunkCount(s, snap.doc)
  }

  /** The effect of external call number `k` of the row's handler. */
  function DoCall(r: Routing, s: State, snap: Snap, k: nat): State {
    match snap.op
    case UpsertChunk(i, t, m, _) =>
      var key := UpsertKey(r, snap.doc, snap.op);
      if k == 0 then s.(qdrant := s.qdrant[key := Point(t, m)])
      else s.(es := s.es[key := EsDoc(t, i)])
    case DeleteChunks(u) =>
      var c := DeleteCollection(r, u);
      if k == 0 then s.(qdrant := s.qdrant - DocKeys(c, snap.doc, ChunkCount(s, snap.doc)))
      else s.(es := s.es - {Key(c, snap.doc, k - 1)})
  }

  // ---- Steps ----

  /** `count(*) ... status != 'PUBLISHED'` is zero. */
  predicate AllPublished(rows: seq<Row>, d: DocId) {
    forall r :: 0 <= r < |rows| && rows[r].doc == d ==> rows[r].status == PUBLISHED
  }

  predicate HeldByOther(s: State, w: WorkerId, id: RowId) {
    exists v :: v in s.workers && v != w && id in s.workers[v].held
  }

  function AfterCommit(c: Config, held: set<RowId>): set<RowId> {
    if c.locks == BatchLocks then held else {}
  }

  function FreshRows(d: DocId, user: UserId, metadata: Metadata, chunks: seq<string>): seq<Row> {
    seq(|chunks|, i requires 0 <= i < |chunks| =>
      Row(d, UpsertChunk(i, chunks[i], metadata, user), PENDING, 0))
  }

  function Snapshot(rows: seq<Row>, ids: seq<RowId>): seq<Snap>
    requires forall i :: 0 <= i < |ids| ==> ids[i] < |rows|
  {
    seq(|ids|, i requires 0 <= i < |ids| =>
      var row := rows[ids[i]]; Snap(ids[i], row.doc, row.op, row.retry))
  }

  function FailedStatus(newCount: nat): RowStatus {
    if newCount >= MAX_RETRIES then DEAD else PENDING
  }

  predicate Busy(s: State, w: WorkerId) {
    w in s.workers && s.workers[w].HasRow() && s.workers[w].Current().id < |s.rows|
  }

  /** Deletion checks the status before its transaction commits, so a second request that
      read the old status may still commit: the step is enabled in every status. */
  predicate Enabled(c: Config, s: State, e: Event) {
    match e
    case Ingest(d, _, _, _) => d !in s.docs
    case DeleteDoc(d) => d in s.docs
    case Claim(w, ids) =>
      && w !in s.workers
      && |ids| <= BATCH_LIMIT
      && (forall i :: 0 <= i < |ids| ==>
            ids[i] < |s.rows| && s.rows[ids[i]].status == PENDING && !HeldByOther(s, w, ids[i]))
      && (forall i, j :: 0 <= i < j < |ids| ==> ids[i] != ids[j])
    case Call(w) =>
      Busy(s, w) && s.workers[w].phase.Calling?
      && s.workers[w].phase.calls < CallsOf(s, s.workers[w].Current())
    case Publish(w) =>
      Busy(s, w) && s.workers[w].phase == Calling(CallsOf(s, s.workers[w].Current()))
      && !HeldByOther(s, w, s.workers[w].Current().id)
    case Count(w) => Busy(s, w) && s.workers[w].phase == AtCount
    case Mark(w) => Busy(s, w) && s.workers[w].phase == AtMark
    case HandlerFail(w) => Busy(s, w) && s.workers[w].phase.Calling?
    case MarkFail(w) => Busy(s, w) && (s.workers[w].phase == AtCount || s.workers[w].phase == AtMark)
    case FailCommit(w) =>
      Busy(s, w) && s.workers[w].phase == Failing
      && !HeldByOther(s, w, s.workers[w].Current().id)
    case Finish(w) => w in s.workers && !s.workers[w].HasRow()
    case Crash(w) => w in s.workers
  }

  function SetDocStatus(s: State, d: DocId, st: DocStatus): map<DocId, Doc>
    requires d in s.docs
  {
    s.docs[d := s.docs[d].(status := st)]
  }

  function MarkReady(s: State, d: DocId): map<DocId, Doc> {
    if d in s.docs && s.docs[d].status == Processing then SetDocStatus(s, d, Ready) else s.docs
  }

  function Apply(c: Config, s: State, e: Event): State
    requires Enabled(c, s, e)
  {
    match e
    case Ingest(d, user, metadata, chunks) =>
      s.(docs := s.docs[d := Doc(user, Processing, |chunks|)],
         rows := s.rows + FreshRows(d, user, metadata, chunks),
         first := s.first[d := |s.rows|])
    case DeleteDoc(d) =>
      s.(docs := SetDocStatus(s, d, Deleting),
         rows := s.rows + [Row(d, DeleteChunks(s.docs[d].user), PENDING, 0)])
    case Claim(w, ids) =>
      s.(workers := s.workers[w := Worker(Snapshot(s.rows, ids), 0, Calling(0), set id | id in ids)])
    case Call(w) =>
      var wk := s.workers[w];
      DoCall(c.routing, s, wk.Current(), wk.phase.calls)
      .(workers := s.workers[w := wk.(phase := Calling(wk.phase.calls + 1))])
    case Publish(w) =>
      var wk := s.workers[w];
      var id := wk.Current().id;
      s.(rows := s.rows[id := s.rows[id].(status := PUBLISHED)],
         workers := s.workers[w := wk.(phase := AtCount, held := AfterCommit(c, wk.held))])
    case Count(w) =>
      var wk := s.workers[w];
      s.(workers := s.workers[w := if AllPublished(s.rows, wk.Current().doc)
                                   then wk.(phase := AtMark) else wk.Advance(wk.held)])
    case Mark(w) =>
      var wk := s.workers[w];
      s.(docs := MarkReady(s, wk.Current().doc),
         workers := s.workers[w := wk.Advance(AfterCommit(c, wk.held))])
    case HandlerFail(w) => s.(workers := s.workers[w := s.workers[w].(phase := Failing)])
    case MarkFail(w) => s.(workers := s.workers[w := s.workers[w].(phase := Failing)])
    case FailCommit(w) =>
      var wk := s.workers[w];
      var snap := wk.Current();
      s.(rows := s.rows[snap.id := s.rows[snap.id].(retry := snap.retry + 1,
                                                    status := FailedStatus(snap.retry + 1))],
         workers := s.workers[w := wk.Advance(AfterCommit(c, wk.held))])
    case Finish(w) => s.(workers := s.workers - {w})
    case Crash(w) => s.(workers := s.workers - {w})
  }

  // ---- Runs ----

  ghost predicate Runs(c: Config, s: State, es: seq<Event>, t: State)
    decreases |es|
  {
    if es == [] then s == t
    else Enabled(c, s, es[0]) && Runs(c, Apply(c, s, es[0]), es[1..], t)
  }

  ghost predicate Leads(c: Config, s: State, t: State) {
    exists es :: Runs(c, s, es, t)
  }

  ghost predicate Reachable(c: Config, t: State) {
    Leads(c, INIT, t)
  }

  lemma {:induction false} RunsConcat(c: Config, s: State, es: seq<Event>, t: State, fs: seq<Event>, u: State)
    requires Runs(c, s, es, t) && Runs(c, t, fs, u)
    ensures Runs(c, s, es + fs, u)
    decreases |es|
  {
    if es == [] {
      assert es + fs == fs;
    } else {
      RunsConcat(c, Apply(c, s, es[0]), es[1..], t, fs, u);
      assert (es + fs)[1..] == es[1..] + fs;
    }
  }

  lemma LeadsOne(c: Config, s: State, e: Event)
    requires Enabled(c, s, e)
    ensures Leads(c, s, Apply(c, s, e))
  {
    assert [e][1..] == [];
    assert Runs(c, s, [e], Apply(c, s, e));
  }

  lemma LeadsTrans(c: Config, s: State, t: State, u: State)
    requires Leads(c, s, t) && Leads(c, t, u)
    ensures Leads(c, s, u)
  {
    var es :| Runs(c, s, es, t);
    var fs :| Runs(c, t, fs, u);
    RunsConcat(c, s, es, t, fs, u);
  }
}
