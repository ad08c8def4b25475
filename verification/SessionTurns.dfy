/**
Overlapping calls on one session: add_turn reads the row and later writes the count it read plus one, the
service's end_session reads and later sets the end, and the `/end` route moves the status. Each call
reads the row anew, and each commit is one step.
*/
module SessionTurns {
  import SessionEnd

  type Caller = nat

  /** What a call of add_turn has read. `at` is how many turns there were then, which no step reads. */
  datatype Loaded = Loaded(count: nat, at: nat)

  datatype State = State(
    turns: nat,
    turnCount: nat,
    ended: bool,
    adding: map<Caller, Loaded>,
    ending: set<Caller>,
    route: SessionEnd.State)

  const INIT := State(0, 0, false, map[], {}, SessionEnd.INIT)

  /** Load: get_session in add_turn; a session that has ended is refused. Add: the commit of the turn and the
      count. LoadToEnd, End: the same in end_session. Drop: the call dies. Route: a step of the route. */
  datatype Event =
    | Load(c: Caller)
    | Add(c: Caller)
    | LoadToEnd(c: Caller)
    | End(c: Caller)
    | Drop(c: Caller)
    | Route(e: SessionEnd.Event)

  /** A write waits while the route holds the row. */
  predicate Enabled(s: State, e: Event) {
    match e
    case Load(c) => c !in s.adding
    case Add(c) => c in s.adding && s.route.lock == {}
    case LoadToEnd(c) => true
    case End(c) => c in s.ending && s.route.lock == {}
    case Drop(c) => true
    case Route(e) => SessionEnd.Enabled(s.route, e)
  }

  function Apply(s: State, e: Event): State
    requires Enabled(s, e)
  {
    match e
    case Load(c) => if s.ended then s else s.(adding := s.adding[c := Loaded(s.turnCount, s.turns)])
    case Add(c) => s.(turns := s.turns + 1, turnCount := s.adding[c].count + 1, adding := s.adding - {c})
    case LoadToEnd(c) => if s.ended then s else s.(ending := s.ending + {c})
    case End(c) => s.(ended := true, ending := s.ending - {c})
    case Drop(c) => s.(adding := s.adding - {c}, ending := s.ending - {c})
    case Route(e) => s.(route := SessionEnd.Apply(s.route, e))
  }

  ghost predicate Runs(s: State, es: seq<Event>, t: State)
    decreases |es|
  {
    if es == [] then s == t else Enabled(s, es[0]) && Runs(Apply(s, es[0]), es[1..], t)
  }

  ghost predicate Leads(s: State, t: State) {
    exists es :: Runs(s, es, t)
  }

  ghost predicate Reachable(t: State) {
    Leads(INIT, t)
  }

  lemma LeadsOne(s: State, e: Event)
    requires Enabled(s, e)
    ensures Leads(s, Apply(s, e))
  {
    assert [e][1..] == [];
    assert Runs(s, [e], Apply(s, e));
  }

  lemma {:induction false} RunsConcat(s: State, es: seq<Event>, t: State, fs: seq<Event>, u: State)
    requires Runs(s, es, t) && Runs(t, fs, u)
    ensures Runs(s, es + fs, u)
    decreases |es|
  {
    if es == [] {
      assert es + fs == fs;
    } else {
      RunsConcat(Apply(s, es[0]), es[1..], t, fs, u);
      assert (es + fs)[1..] == es[1..] + fs;
    }
  }

  lemma LeadsTrans(s: State, t: State, u: State)
    requires Leads(s, t) && Leads(t, u)
    ensures Leads(s, u)
  {
    var es :| Runs(s, es, t);
    var fs :| Runs(t, fs, u);
    RunsConcat(s, es, t, fs, u);
  }

  // ---- The turn count ----

  /** No turn of the run was committed between another call's read and its commit. */
  ghost predicate NeverOverlap(s: State, es: seq<Event>)
    decreases |es|
  {
    es != [] && Enabled(s, es[0]) ==>
      && (es[0].Add? ==> s.adding[es[0].c].at == s.turns)
      && NeverOverlap(Apply(s, es[0]), es[1..])
  }

  predicate Counted(s: State) {
    s.turnCount == s.turns && forall c :: c in s.adding ==> s.adding[c].count == s.adding[c].at <= s.turns
  }

  predicate Lost(s: State) {
    s.turnCount < s.turns && forall c :: c in s.adding ==> s.adding[c].count < s.turns
  }

  lemma StepCounted(s: State, e: Event)
    requires Counted(s) && Enabled(s, e)
    ensures if e.Add? && s.adding[e.c].at != s.turns then Lost(Apply(s, e)) else Counted(Apply(s, e))
  {
  }

  lemma StepLost(s: State, e: Event)
    requires Lost(s) && Enabled(s, e)
    ensures Lost(Apply(s, e))
  {
  }

  lemma {:induction false} RunLost(s: State, es: seq<Event>, t: State)
    requires Lost(s) && Runs(s, es, t)
    ensures Lost(t)
    decreases |es|
  {
    if es != [] {
      StepLost(s, es[0]);
      RunLost(Apply(s, es[0]), es[1..], t);
    }
  }

  lemma {:induction false} RunCounted(s: State, es: seq<Event>, t: State)
    requires Counted(s) && Runs(s, es, t)
    ensures if NeverOverlap(s, es) then Counted(t) else Lost(t)
    decreases |es|
  {
    if es != [] {
      var u := Apply(s, es[0]);
      StepCounted(s, es[0]);
      if es[0].Add? && s.adding[es[0].c].at != s.turns {
        RunLost(u, es[1..], t);
      } else {
        RunCounted(u, es[1..], t);
      }
    }
  }

  /** Exactly when the count of a session is the number of its turns, after any run: iff no turn was committed
      between the read and the commit of another. Otherwise it is smaller, and stays so. */
  lemma CountExactIff(es: seq<Event>, t: State)
    requires Runs(INIT, es, t)
    ensures t.turnCount <= t.turns
    ensures t.turnCount == t.turns <==> NeverOverlap(INIT, es)
  {
    RunCounted(INIT, es, t);
  }

  /** A lost increment is never made up for. */
  lemma LossIsForever(t: State, fs: seq<Event>, u: State)
    requires Reachable(t) && t.turnCount < t.turns && Runs(t, fs, u)
    ensures u.turnCount < u.turns
  {
    var es :| Runs(INIT, es, t);
    RunCounted(INIT, es, t);
    RunLost(t, fs, u);
  }

  /** Two calls that overlap lose one. */
  lemma OverlapLoses() returns (t: State)
    ensures Reachable(t) && t.turns == 2 && t.turnCount == 1
  {
    var s1 := Apply(INIT, Load(0));
    var s2 := Apply(s1, Load(1));
    var s3 := Apply(s2, Add(0));
    t := Apply(s3, Add(1));
    LeadsOne(INIT, Load(0));
    LeadsOne(s1, Load(1));
    LeadsTrans(INIT, s1, s2);
    LeadsOne(s2, Add(0));
    LeadsTrans(INIT, s2, s3);
    LeadsOne(s3, Add(1));
    LeadsTrans(INIT, s3, t);
  }

  // ---- Which sessions still take turns ----

  ghost predicate CanGrow(s: State) {
    exists t :: Leads(s, t) && t.turns > s.turns
  }

  lemma {:induction false} RouteInv(s: State, es: seq<Event>, t: State)
    requires SessionEnd.Inv(s.route) && Runs(s, es, t)
    ensures SessionEnd.Inv(t.route)
    decreases |es|
  {
    if es != [] {
      if es[0].Route? {
        SessionEnd.StepInv(s.route, es[0].e);
      }
      RouteInv(Apply(s, es[0]), es[1..], t);
    }
  }

  lemma GrowsLater(s: State, t: State)
    requires Leads(s, t) && t.turns >= s.turns && CanGrow(t)
    ensures CanGrow(s)
  {
    var u :| Leads(t, u) && u.turns > t.turns;
    LeadsTrans(s, t, u);
  }

  lemma LoadedGrows(s: State, c: Caller)
    requires SessionEnd.Inv(s.route) && c in s.adding
    ensures CanGrow(s)
  {
    var t := s;
    assert Runs(s, [], s);
    if k :| k in s.route.lock {
      t := Apply(s, Route(SessionEnd.Abort(k)));
      LeadsOne(s, Route(SessionEnd.Abort(k)));
      assert |s.route.lock - {k}| == 0;
    }
    LeadsOne(t, Add(c));
    GrowsLater(s, t);
  }

  lemma OpenGrows(s: State)
    requires SessionEnd.Inv(s.route) && !s.ended
    ensures CanGrow(s)
  {
    if c :| c in s.adding {
      LoadedGrows(s, c);
    } else {
      var t := Apply(s, Load(0));
      LeadsOne(s, Load(0));
      LoadedGrows(t, 0);
      GrowsLater(s, t);
    }
  }

  /** After the end no call loads the session any more, and each that has may add one turn. */
  lemma {:induction false} AfterEnd(s: State, es: seq<Event>, t: State)
    requires s.ended && Runs(s, es, t)
    ensures t.ended && t.turns + |t.adding| <= s.turns + |s.adding|
    decreases |es|
  {
    if es != [] {
      StepAfterEnd(s, es[0]);
      AfterEnd(Apply(s, es[0]), es[1..], t);
    }
  }

  lemma StepAfterEnd(s: State, e: Event)
    requires s.ended && Enabled(s, e)
    ensures var t := Apply(s, e); t.ended && t.turns + |t.adding| <= s.turns + |s.adding|
  {
    if e.Add? || e.Drop? {
      assert (s.adding - {e.c}).Keys == s.adding.Keys - {e.c};
      assert |s.adding.Keys - {e.c}| == |s.adding.Keys| - (if e.c in s.adding then 1 else 0);
      assert |(s.adding - {e.c}).Keys| == |s.adding - {e.c}|;
    }
  }

  /** Exactly when a session can still get a turn: iff the service has not ended it, or a call that loaded it before
      the end has still to commit. The status of the route makes no difference. */
  lemma CanGrowIff(s: State)
    requires Reachable(s)
    ensures CanGrow(s) <==> !s.ended || s.adding != map[]
  {
    var es :| Runs(INIT, es, s);
    RouteInv(INIT, es, s);
    if !s.ended {
      OpenGrows(s);
    } else if c :| c in s.adding {
      LoadedGrows(s, c);
    } else if CanGrow(s) {
      var t :| Leads(s, t) && t.turns > s.turns;
      var fs :| Runs(s, fs, t);
      AfterEnd(s, fs, t);
    }
  }

  /** After the end a session gets at most one turn of each call that had loaded it. */
  lemma LateTurnsBound(s: State, es: seq<Event>, t: State)
    requires s.ended && Runs(s, es, t)
    ensures t.turns <= s.turns + |s.adding|
  {
    AfterEnd(s, es, t);
  }

  lemma {:induction false} NobodyEnds(s: State, es: seq<Event>, t: State)
    requires !s.ended && Runs(s, es, t) && forall e :: e in es ==> !e.End?
    ensures !t.ended
    decreases |es|
  {
    if es != [] {
      assert es[0] in es;
      NobodyEnds(Apply(s, es[0]), es[1..], t);
    }
  }

  /** Whatever the route does, and nothing else ends a session over HTTP, the session takes turns for ever. */
  lemma RouteNeverStops(es: seq<Event>, t: State)
    requires Runs(INIT, es, t) && forall e :: e in es ==> !e.End?
    ensures CanGrow(t)
  {
    NobodyEnds(INIT, es, t);
    CanGrowIff(t);
  }

  lemma {:induction false} RouteRuns(s: State, es: seq<SessionEnd.Event>, r: SessionEnd.State)
    requires SessionEnd.Runs(s.route, es, r)
    ensures Leads(s, s.(route := r))
    decreases |es|
  {
    if es == [] {
      assert Runs(s, [], s);
    } else {
      var t := Apply(s, Route(es[0]));
      LeadsOne(s, Route(es[0]));
      RouteRuns(t, es[1..], r);
      LeadsTrans(s, t, s.(route := r));
    }
  }

  /** So a session that is summarized still does. */
  lemma SummarizedStillGrows() returns (t: State)
    ensures Reachable(t) && t.route.status == SessionEnd.Summarized && !t.ended && CanGrow(t)
  {
    SessionEnd.EndingRun(SessionEnd.INIT, 0);
    var queued := SessionEnd.INIT.(status := SessionEnd.SummarizationPending, queue := 1, enqueued := 1);
    var done := SessionEnd.QueuedSummarizes(queued);
    SessionEnd.LeadsTrans(SessionEnd.INIT, queued, done);
    var es :| SessionEnd.Runs(SessionEnd.INIT, es, done);
    t := INIT.(route := done);
    RouteRuns(INIT, es, done);
    CanGrowIff(t);
  }
}
