/**
Ending a session: a compare-and-set in the request handler, one background task enqueued by the
winner, and a guarded update in a worker that may get the message more than once.
*/
module SessionEnd {
  import opened Wrappers

  type Caller = nat
  type WorkerId = nat

  datatype Status = Active | SummarizationPending | Summarized

  /** `lock`: a caller whose update is not committed yet.
      `toEnqueue`: callers between their commit and `delay`.
      `queue`: messages waiting for a worker. `running`: deliveries not yet acknowledged.
      `enqueued`: how often `delay` was called, which no step reads. */
  datatype State = State(
    status: Status,
    lock: set<Caller>,
    toEnqueue: set<Caller>,
    queue: nat,
    running: set<WorkerId>,
    enqueued: nat)

  const INIT := State(Active, {}, {}, 0, {}, 0)

  /** Update: UPDATE ... WHERE status = 'active' RETURNING id; it waits while another caller holds
      the row. Abort: the handler dies, or `delay` raises. WorkerUpdate: the guarded update and
      its commit. Redeliver: the worker is lost or retries, the message goes back.
      Duplicate: the message goes back though its worker still runs, since it is acknowledged late.
      GiveUp: the last retry fails. */
  datatype Event =
    | Update(c: Caller)
    | Commit(c: Caller)
    | Enqueue(c: Caller)
    | Abort(c: Caller)
    | Deliver(w: WorkerId)
    | WorkerUpdate(w: WorkerId)
    | Ack(w: WorkerId)
    | Redeliver(w: WorkerId)
    | Duplicate(w: WorkerId)
    | GiveUp(w: WorkerId)

  predicate Enabled(s: State, e: Event) {
    match e
    case Update(c) => s.lock == {} && c !in s.toEnqueue
    case Commit(c) => c in s.lock
    case Enqueue(c) => c in s.toEnqueue
    case Abort(c) => c in s.lock || c in s.toEnqueue
    case Deliver(w) => s.queue > 0 && w !in s.running
    case WorkerUpdate(w) => w in s.running && s.lock == {}
    case Ack(w) => w in s.running
    case Redeliver(w) => w in s.running
    case Duplicate(w) => w in s.running
    case GiveUp(w) => w in s.running
  }

  function Apply(s: State, e: Event): State
    requires Enabled(s, e)
  {
    match e
    case Update(c) => if s.status == Active then s.(lock := {c}) else s
    case Commit(c) => s.(status := SummarizationPending, lock := {}, toEnqueue := s.toEnqueue + {c})
    case Enqueue(c) => s.(toEnqueue := s.toEnqueue - {c}, queue := s.queue + 1, enqueued := s.enqueued + 1)
    case Abort(c) => s.(lock := s.lock - {c}, toEnqueue := s.toEnqueue - {c})
    case Deliver(w) => s.(queue := s.queue - 1, running := s.running + {w})
    case WorkerUpdate(w) =>
      s.(status := if s.status == SummarizationPending then Summarized else s.status)
    case Ack(w) => s.(running := s.running - {w})
    case Redeliver(w) => s.(running := s.running - {w}, queue := s.queue + 1)
    case Duplicate(w) => s.(queue := s.queue + 1)
    case GiveUp(w) => s.(running := s.running - {w})
  }

  ghost predicate Runs(s: State, es: seq<Event>, t: State)
    decreases |es|
  {
    if es == [] then s == t else Enabled(s, es[0]) && Runs(Apply(s, es[0]), es[1..], t)
  }

  ghost predicate Reachable(t: State) {
    exists es :: Runs(INIT, es, t)
  }

  function Rank(st: Status): nat {
    match st
    case Active => 0
    case SummarizationPending => 1
    case Summarized => 2
  }

  /** Messages anywhere, and callers that will still send one. */
  function Tokens(s: State): nat {
    |s.toEnqueue| + s.queue + |s.running|
  }

  predicate Inv(s: State) {
    && |s.lock| <= 1
    && (s.status == Active ==> s.enqueued == 0 && s.toEnqueue == {} && s.queue == 0 && s.running == {})
    && (s.status != Active ==> s.lock == {})
    && |s.toEnqueue| + s.enqueued <= 1
    && (s.enqueued == 0 ==> s.queue == 0 && s.running == {})
    && (s.status == Summarized ==> s.enqueued == 1)
  }

  lemma StepInv(s: State, e: Event)
    requires Inv(s) && Enabled(s, e)
    ensures Inv(Apply(s, e))
    ensures Rank(s.status) <= Rank(Apply(s, e).status) <= Rank(s.status) + 1
  {
    match e
    case Abort(c) =>
      if c in s.toEnqueue {
        assert s.toEnqueue - {c} <= s.toEnqueue;
        assert |s.toEnqueue - {c}| == |s.toEnqueue| - 1;
      } else {
        assert s.toEnqueue - {c} == s.toEnqueue;
      }
      if c in s.lock {
        assert |s.lock - {c}| == |s.lock| - 1;
      } else {
        assert s.lock - {c} == s.lock;
      }
    case _ =>
  }

  lemma {:induction false} RunInv(s: State, es: seq<Event>, t: State)
    requires Inv(s) && Runs(s, es, t)
    ensures Inv(t) && Rank(s.status) <= Rank(t.status)
    decreases |es|
  {
    if es != [] {
      StepInv(s, es[0]);
      RunInv(Apply(s, es[0]), es[1..], t);
    }
  }

  /** However many callers end the session and however often the message is redelivered, it is
      enqueued at most once, never while the session is active, and a summarized session was
      enqueued exactly once. */
  lemma EnqueuedAtMostOnce(s: State)
    requires Reachable(s)
    ensures s.enqueued <= 1
    ensures s.status == Active ==> s.enqueued == 0
    ensures s.status == Summarized ==> s.enqueued == 1
  {
    var es :| Runs(INIT, es, s);
    RunInv(INIT, es, s);
  }

  /** The status only moves forward, one stage at a time. */
  lemma StatusMovesForward(s: State, e: Event, es: seq<Event>, t: State)
    requires Reachable(s) && Enabled(s, e) && Runs(s, es, t)
    ensures Rank(s.status) <= Rank(t.status)
    ensures Rank(s.status) <= Rank(Apply(s, e).status) <= Rank(s.status) + 1
  {
    var fs :| Runs(INIT, fs, s);
    RunInv(INIT, fs, s);
    StepInv(s, e);
    RunInv(s, es, t);
  }

  /** A redelivered task changes nothing: once an update has run, another one leaves the state as it is, whatever
      happened in between, by a worker that runs at the same time or by a later one. */
  lemma RedeliveryIdempotent(s: State, w: WorkerId, es: seq<Event>, t: State, v: WorkerId)
    requires Reachable(s) && Enabled(s, WorkerUpdate(w))
    requires Runs(Apply(s, WorkerUpdate(w)), es, t) && Enabled(t, WorkerUpdate(v))
    ensures Apply(t, WorkerUpdate(v)) == t && t.status == Summarized
  {
    var fs :| Runs(INIT, fs, s);
    RunInv(INIT, fs, s);
    assert s.running != {};
    StepInv(s, WorkerUpdate(w));
    RunInv(Apply(s, WorkerUpdate(w)), es, t);
  }

  /** How many updates of a run found the session pending, and changed it. */
  ghost function Changes(s: State, es: seq<Event>): nat
    decreases |es|
  {
    if es == [] || !Enabled(s, es[0]) then 0
    else (if es[0].WorkerUpdate? && Apply(s, es[0]) != s then 1 else 0) + Changes(Apply(s, es[0]), es[1..])
  }

  /** Over any run the updates change the session once if it ends summarized, and never otherwise, however many
      copies of the message were delivered. */
  lemma SummarizedOnce(es: seq<Event>, t: State)
    requires Runs(INIT, es, t)
    ensures Changes(INIT, es) == if t.status == Summarized then 1 else 0
  {
    ChangesOnce(INIT, es, t);
  }

  lemma {:induction false} ChangesOnce(s: State, es: seq<Event>, t: State)
    requires Inv(s) && Runs(s, es, t)
    ensures Changes(s, es) == if t.status == Summarized && s.status != Summarized then 1 else 0
    decreases |es|
  {
    if es != [] {
      StepInv(s, es[0]);
      RunInv(Apply(s, es[0]), es[1..], t);
      ChangesOnce(Apply(s, es[0]), es[1..], t);
    }
  }

  /** Two workers do run at once: the message goes back while its worker runs. */
  lemma CopiesOverlap(w: WorkerId, v: WorkerId) returns (s: State)
    requires w != v
    ensures Reachable(s) && s.status == SummarizationPending && s.running == {w, v}
  {
    EndingRun(INIT, 0);
    var s1 := INIT.(status := SummarizationPending, queue := 1, enqueued := 1);
    var s2 := Apply(s1, Deliver(w));
    var s3 := Apply(s2, Duplicate(w));
    s := Apply(s3, Deliver(v));
    LeadsOne(s1, Deliver(w));
    LeadsTrans(INIT, s1, s2);
    LeadsOne(s2, Duplicate(w));
    LeadsTrans(INIT, s2, s3);
    LeadsOne(s3, Deliver(v));
    LeadsTrans(INIT, s3, s);
    assert {w} + {v} == {w, v};
  }

  // ---- What at most once costs ----

  ghost predicate Leads(s: State, t: State) {
    exists es :: Runs(s, es, t)
  }

  lemma LeadsOne(s: State, e: Event)
    requires Enabled(s, e)
    ensures Leads(s, Apply(s, e))
  {
    assert [e][1..] == [];
    assert Runs(s, [e], Apply(s, e));
  }

  lemma {:induction false} RunsConcat(s: State, es: seq<Event>, t: State, fs: seq<Event>, u: State)
    requires Runs(s, es, t) && Runs(t, fs, u)
    ensures Runs(s, es + fs, u)
    decreases |es|
  {
    if es == [] {
      assert es + fs == fs;
    } else {
      RunsConcat(Apply(s, es[0]), es[1..], t, fs, u);
      assert (es + fs)[1..] == es[1..] + fs;
    }
  }

  lemma LeadsTrans(s: State, t: State, u: State)
    requires Leads(s, t) && Leads(t, u)
    ensures Leads(s, u)
  {
    var es :| Runs(s, es, t);
    var fs :| Runs(t, fs, u);
    RunsConcat(s, es, t, fs, u);
  }

  lemma {:induction false} NoTokenNoProgress(s: State, es: seq<Event>, t: State)
    requires Inv(s) && s.status == SummarizationPending && Tokens(s) == 0 && Runs(s, es, t)
    ensures t.status == SummarizationPending
    decreases |es|
  {
    if es != [] {
      StepInv(s, es[0]);
      NoTokenNoProgress(Apply(s, es[0]), es[1..], t);
    }
  }

  lemma RunningSummarizes(s: State, w: WorkerId) returns (t: State)
    requires Inv(s) && s.status == SummarizationPending && w in s.running
    ensures Leads(s, t) && t.status == Summarized
  {
    LeadsOne(s, WorkerUpdate(w));
    t := Apply(s, WorkerUpdate(w));
  }

  lemma QueuedSummarizes(s: State) returns (t: State)
    requires Inv(s) && s.status == SummarizationPending && s.queue > 0 && s.running == {}
    ensures Leads(s, t) && t.status == Summarized
  {
    LeadsOne(s, Deliver(0));
    StepInv(s, Deliver(0));
    var u := Apply(s, Deliver(0));
    t := RunningSummarizes(u, 0);
    LeadsTrans(s, u, t);
  }

  /** Exactly when a pending session can still be summarized: iff its message, or a caller about to
      send it, is left. A handler that dies between its commit and `delay` leaves none, and a later
      call to end the session does not enqueue again. */
  lemma SummarizableIff(s: State)
    requires Reachable(s) && s.status == SummarizationPending
    ensures (exists t :: Leads(s, t) && t.status == Summarized) <==> Tokens(s) > 0
  {
    var es :| Runs(INIT, es, s);
    RunInv(INIT, es, s);
    if s.running != {} {
      var w :| w in s.running;
      var t := RunningSummarizes(s, w);
    } else if s.queue > 0 {
      var t := QueuedSummarizes(s);
    } else if s.toEnqueue != {} {
      var c :| c in s.toEnqueue;
      LeadsOne(s, Enqueue(c));
      StepInv(s, Enqueue(c));
      var u := Apply(s, Enqueue(c));
      var t := QueuedSummarizes(u);
      LeadsTrans(s, u, t);
    } else {
      forall t | Leads(s, t)
        ensures t.status != Summarized
      {
        var fs :| Runs(s, fs, t);
        NoTokenNoProgress(s, fs, t);
      }
    }
  }

  /** Such a state is reached: update, commit, and the handler dies. */
  lemma EnqueueCanBeLost() returns (s: State)
    ensures Reachable(s) && s.status == SummarizationPending && Tokens(s) == 0
  {
    var s1 := Apply(INIT, Update(0));
    var s2 := Apply(s1, Commit(0));
    s := Apply(s2, Abort(0));
    LeadsOne(INIT, Update(0));
    LeadsOne(s1, Commit(0));
    LeadsTrans(INIT, s1, s2);
    LeadsOne(s2, Abort(0));
    LeadsTrans(INIT, s2, s);
    assert s == State(SummarizationPending, {}, {}, 0, {}, 0);
  }

  // ---- The code ----

  type User = nat

  /** The row of a session and the broker, between two requests. Each call is the run of events it
      stands for when no other call comes between. */
  class SessionRow {
    const owner: User
    var status: Status
    var queue: nat
    var running: set<WorkerId>
    ghost var enqueued: nat

    constructor (user: User)
      ensures owner == user && Now() == INIT
    {
      owner, status, queue, running, enqueued := user, Active, 0, {}, 0;
    }

    ghost function Now(): State
      reads this
    {
      State(status, {}, {}, queue, running, enqueued)
    }

    /** `None`: 404, for a session of somebody else. */
    method EndSession(user: User) returns (r: Option<Status>)
      modifies this
      ensures r == if user != owner then None
                   else if old(status) == Active then Some(SummarizationPending) else Some(old(status))
      ensures Now() == if user == owner && old(status) == Active
                       then old(Now()).(status := SummarizationPending, queue := old(queue) + 1,
                                        enqueued := old(enqueued) + 1)
                       else old(Now())
      ensures Leads(old(Now()), Now())
    {
      if user == owner && status == Active {
        EndingRun(Now(), 0);
        status := SummarizationPending;
        queue := queue + 1;
        enqueued := enqueued + 1;
        return Some(SummarizationPending);
      }
      assert Runs(Now(), [], Now());
      r := if user == owner then Some(status) else None;
    }

    /** The guarded update of a delivered task. */
    method UpdateSessionStatus(w: WorkerId)
      requires w in running
      modifies this`status
      ensures Now() == Apply(old(Now()), WorkerUpdate(w))
      ensures Leads(old(Now()), Now())
    {
      LeadsOne(Now(), WorkerUpdate(w));
      if status == SummarizationPending {
        status := Summarized;
      }
    }
  }

  lemma EndingRun(s: State, c: Caller)
    requires s.status == Active && s.lock == {} && s.toEnqueue == {}
    ensures Leads(s, s.(status := SummarizationPending, queue := s.queue + 1, enqueued := s.enqueued + 1))
  {
    var s1 := Apply(s, Update(c));
    var s2 := Apply(s1, Commit(c));
    var s3 := Apply(s2, Enqueue(c));
    LeadsOne(s, Update(c));
    LeadsOne(s1, Commit(c));
    LeadsTrans(s, s1, s2);
    LeadsOne(s2, Enqueue(c));
    LeadsTrans(s, s2, s3);
    assert s3 == s.(status := SummarizationPending, queue := s.queue + 1, enqueued := s.enqueued + 1);
  }
}
