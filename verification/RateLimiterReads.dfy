/**
The answer to a denied request of the two-phase limiter. The oldest entry and its score are read after
the undo, by commands of their own; the set may have changed by then.
*/
module RateLimiterReads {
  import opened Wrappers
  import opened Arithmetic
  import opened RateLimiter
  import opened RateWindow
  import opened RateLimiterHistory
  import opened RateLimiterTwoPhase

  /** Raised: the index into the empty range raises, which nobody catches. */
  datatype Reply = Raised | RetryIn(seconds: int)

  function ScoreOf(z: seq<Entry>, m: Member): Option<int>
    decreases |z|
  {
    if z == [] then None else if z[0].member == m then Some(z[0].score) else ScoreOf(z[1..], m)
  }

  /** `counted` entries were in the window when the request was denied. `ranged` is the set when its
      first member is read, `scored` the set when that member's score is. */
  function DeniedReply(counted: nat, ranged: seq<Entry>, scored: seq<Entry>, now: int, window: nat): Reply {
    if counted == 0 then RetryIn(RetryAfter(now, now, window))
    else if ranged == [] then Raised
    else
      match ScoreOf(scored, ranged[0].member)
      case None => RetryIn(window)
      case Some(score) => RetryIn(RetryAfter(score, now, window))
  }

  lemma CheckReply(z: seq<Entry>, q: Request)
    requires |Prune(z, Cutoff(q))| >= q.limit
    ensures var o := Check(z, q.now, q.member, q.limit, q.window);
            o.decision.Denied? && DeniedReply(|Prune(z, Cutoff(q))|, o.entries, o.entries, q.now, q.window)
                               == RetryIn(o.decision.retryAfter)
  {
    var o := Check(z, q.now, q.member, q.limit, q.window);
    CheckSize(z, q);
    if o.entries != [] {
      assert ScoreOf(o.entries, o.entries[0].member) == Some(o.entries[0].score);
    }
  }

  /** With each undo and each read right after its pipeline a denial never raises, and its hint is that
      of the atomic limiter. */
  lemma SerialReply(qs: Trace, q: Request)
    requires Clock(Then(qs, q)) && WindowsFrom(Then(qs, q), 1)
    requires |Prune(ServeAll(qs).entries, Cutoff(q))| >= q.limit
    ensures var z := RunAll(Serialize(Then(qs, q))).entries;
            var counted := |Prune(ServeAll(qs).entries, Cutoff(q))|;
            var d := Answer(qs, q.now, q.member, q.limit, q.window);
            d.Denied? && DeniedReply(counted, z, z, q.now, q.window) == RetryIn(d.retryAfter)
  {
    SerialIsAtomic(Then(qs, q), 1);
    CheckReply(ServeAll(qs).entries, q);
  }

  /** When every entry is gone, the admissions still in the window have all been evicted: a read can only
      raise after undos have taken out all of them. */
  lemma EmptyMeansEvicted(cs: Commands, window: nat, now: int)
    requires ClockOk(cs) && WindowOk(cs, window) && CommandsFollow(cs, now)
    requires RunAll(cs).entries == []
    ensures RunAll(cs).denied == []
    ensures |Recent(Times(RunAll(cs).log), now - window * 1000)| == |Recent(RunAll(cs).evicted, now - window * 1000)|
  {
    DeniedAreInSet(cs);
    ExactAccounting(cs, window, now, now - window * 1000);
    assert Scores(RunAll(cs).entries) == [];
  }

  /** Exactly when a read of a counted denial raises: iff no entry is left. While the window holds an
      admission that no undo has taken out, one is. */
  lemma ReadRaisesIff(cs: Commands, window: nat, now: int, counted: nat, scored: seq<Entry>)
    requires ClockOk(cs) && WindowOk(cs, window) && CommandsFollow(cs, now) && counted > 0
    ensures DeniedReply(counted, RunAll(cs).entries, scored, now, window) == Raised <==> RunAll(cs).entries == []
    ensures var cutoff := now - window * 1000;
            |Recent(Times(RunAll(cs).log), cutoff)| > |Recent(RunAll(cs).evicted, cutoff)| ==>
              RunAll(cs).entries != []
  {
    if RunAll(cs).entries == [] {
      EmptyMeansEvicted(cs, window, now);
    }
  }

  lemma {:induction false} ScoreIn(z: seq<Entry>, m: Member)
    ensures ScoreOf(z, m).Some? ==> ScoreOf(z, m).value in Scores(z)
    decreases |z|
  {
    if z != [] && z[0].member != m {
      ScoreIn(z[1..], m);
      if ScoreOf(z, m).Some? {
        var i :| 0 <= i < |Scores(z[1..])| && Scores(z[1..])[i] == ScoreOf(z, m).value;
        assert Scores(z)[i + 1] == Scores(z[1..])[i];
      }
    } else if z != [] {
      assert Scores(z)[0] == z[0].score;
    }
  }

  /** The hint of any denial that does not raise: at least a second, and longer than the window by at most the whole
      seconds that have passed on the key since the denial. If the entry read first is gone by the time its
      score is, the hint is the window. */
  lemma HintBound(cs: Commands, counted: nat, ranged: seq<Entry>, now: int, window: nat, t: int)
    requires ClockOk(cs) && CommandsFollow(cs, t) && now <= t && window >= 1
    requires DeniedReply(counted, ranged, RunAll(cs).entries, now, window).RetryIn?
    ensures 1 <= DeniedReply(counted, ranged, RunAll(cs).entries, now, window).seconds <= window + (t - now) / 1000
    ensures counted > 0 && ScoreOf(RunAll(cs).entries, ranged[0].member) == None ==>
              DeniedReply(counted, ranged, RunAll(cs).entries, now, window).seconds == window
  {
    AllNoneAfter(cs, t);
    if counted > 0 && ranged != [] {
      ScoreIn(RunAll(cs).entries, ranged[0].member);
    }
  }

  // ---- A run that raises ----

  function Lone(now: int, member: Member): Request {
    Request(now, member, 1, 60)
  }

  function First(): Commands {
    And(Begin, Pipeline(Lone(0, 0)))
  }

  function Second(): Commands {
    And(First(), Pipeline(Lone(59999, 1)))
  }

  /** The third request prunes the admitted one, and counts the denied one whose undo is still to come. */
  function Third(): Commands {
    And(Second(), Pipeline(Lone(60001, 2)))
  }

  function BothUndone(): Commands {
    And(And(Third(), Undo(60001)), Undo(60002))
  }

  lemma LoneStep(cs: Commands, now: int, member: Member, n: nat, scores: seq<int>, kept: seq<int>)
    requires Scores(RunAll(cs).entries) == scores && NoneAfter(scores, now)
    requires n <= |scores| && |kept| == |scores| - n
    requires forall i :: 0 <= i < n ==> scores[i] <= now - 60000
    requires forall i :: n <= i < |scores| ==> scores[i] > now - 60000 && kept[i - n] == scores[i]
    ensures Scores(RunAll(And(cs, Pipeline(Lone(now, member)))).entries) == kept + [now]
    ensures |Prune(RunAll(cs).entries, now - 60000)| == |kept|
  {
    RecentIs(scores, now - 60000, n, kept);
    PruneLength(RunAll(cs).entries, now - 60000);
    LonePipeline(RunAll(cs), now, member);
    assert RunAll(And(cs, Pipeline(Lone(now, member)))) == RunPipeline(RunAll(cs), Lone(now, member));
  }

  lemma LonePipeline(k: KeyState, now: int, member: Member)
    requires NoneAfter(Scores(k.entries), now)
    ensures Scores(RunPipeline(k, Lone(now, member)).entries) == Recent(Scores(k.entries), now - 60000) + [now]
  {
    PipelineScores(k, Lone(now, member));
  }

  lemma PruneLength(z: seq<Entry>, cutoff: int)
    ensures |Prune(z, cutoff)| == |Recent(Scores(z), cutoff)|
  {
    PruneScores(z, |z|, cutoff);
    assert |Scores(Prune(z, cutoff))| == |Prune(z, cutoff)|;
  }

  lemma FirstScores()
    ensures Scores(RunAll(First()).entries) == [0]
  {
    var none: seq<int> := [];
    assert Scores(RunAll(Begin).entries) == none;
    LoneStep(Begin, 0, 0, 0, none, none);
    assert none + [0] == [0];
  }

  lemma SecondScores()
    ensures Scores(RunAll(Second()).entries) == [0] + [59999]
    ensures |Prune(RunAll(First()).entries, 59999 - 60000)| == 1
  {
    FirstScores();
    LoneStep(First(), 59999, 1, 0, [0], [0]);
  }

  lemma DropOldest(cs: Commands, now: int, member: Member, a: int, b: int)
    requires Scores(RunAll(cs).entries) == [a] + [b] && a <= now - 60000 < b <= now
    ensures Scores(RunAll(And(cs, Pipeline(Lone(now, member)))).entries) == [b] + [now]
    ensures |Prune(RunAll(cs).entries, now - 60000)| == 1
  {
    var scores := [a] + [b];
    assert scores[0] == a && scores[1] == b && |scores| == 2;
    LoneStep(cs, now, member, 1, scores, [b]);
  }

  lemma PopTwo(cs: Commands, a: int, b: int, t: int, u: int)
    requires Scores(RunAll(cs).entries) == [a] + [b]
    ensures RunAll(And(And(cs, Undo(t)), Undo(u))).entries == []
  {
    var none: seq<int> := [];
    PopScores(RunAll(cs).entries, [a], b);
    assert none + [a] == [a];
    PopScores(RunAll(And(cs, Undo(t))).entries, none, a);
  }

  /** With limit 1 and window 60: one admission, two denials that each count one entry, both undos, and
      only then the reads. No entry is left, and both denied requests raise. */
  lemma LateReadsRaise(scored: seq<Entry>)
    ensures ClockOk(BothUndone()) && WindowOk(BothUndone(), 60)
    ensures |Prune(RunAll(First()).entries, 59999 - 60000)| == 1
    ensures |Prune(RunAll(Second()).entries, 60001 - 60000)| == 1
    ensures DeniedReply(1, RunAll(BothUndone()).entries, scored, 59999, 60) == Raised
    ensures DeniedReply(1, RunAll(BothUndone()).entries, scored, 60001, 60) == Raised
  {
    SecondScores();
    DropOldest(Second(), 60001, 2, 0, 59999);
    PopTwo(Third(), 59999, 60001, 60001, 60002);
  }

  /** The set was empty, and one more request is admitted before the read. */
  lemma LateScores(t: int)
    requires t >= 60002
    ensures var z := RunAll(And(BothUndone(), Pipeline(Lone(t, 3)))).entries;
            |z| == 1 && z[0].score == t && ScoreOf(z, z[0].member) == Some(t)
  {
    var none: seq<int> := [];
    SecondScores();
    DropOldest(Second(), 60001, 2, 0, 59999);
    PopTwo(Third(), 59999, 60001, 60001, 60002);
    assert Scores(RunAll(BothUndone()).entries) == none;
    LoneStep(BothUndone(), t, 3, 0, none, none);
    var z := RunAll(And(BothUndone(), Pipeline(Lone(t, 3)))).entries;
    assert Scores(z) == none + [t] == [t] && |Scores(z)| == |z|;
    assert z[0].score == Scores(z)[0];
  }

  /** No bound without that term: the request denied first is told the score of one admitted later, as late as one
      likes. */
  lemma LateHint(t: int)
    requires t >= 60002
    ensures ClockOk(And(BothUndone(), Pipeline(Lone(t, 3)))) && WindowOk(And(BothUndone(), Pipeline(Lone(t, 3))), 60)
    ensures var z := RunAll(And(BothUndone(), Pipeline(Lone(t, 3)))).entries;
            DeniedReply(1, z, z, 59999, 60) == RetryIn(60 + (t - 59999) / 1000)
  {
    LateScores(t);
    LateClock(t);
    HintOf(RunAll(And(BothUndone(), Pipeline(Lone(t, 3)))).entries, t);
  }

  lemma LateClock(t: int)
    requires t >= 60002
    ensures ClockOk(And(BothUndone(), Pipeline(Lone(t, 3)))) && WindowOk(And(BothUndone(), Pipeline(Lone(t, 3))), 60)
  {
    LateReadsRaise([]);
  }

  lemma HintOf(z: seq<Entry>, t: int)
    requires t >= 60002 && |z| == 1 && ScoreOf(z, z[0].member) == Some(t)
    ensures DeniedReply(1, z, z, 59999, 60) == RetryIn(60 + (t - 59999) / 1000)
  {
  }
}
