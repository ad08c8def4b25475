/**
The limiter as coded: the pipeline is atomic, but the undo of a denied request is a command of
its own, and so are the reads for its hint. Other requests may run in between.
*/
module RateLimiterTwoPhase {
  import opened RateLimiter
  import opened RateWindow
  import opened Arithmetic
  import opened RateLimiterHistory

  /** Read: the oldest entry is looked up, for the hint of a denial. It changes nothing. */
  datatype Command = Pipeline(q: Request) | Undo(now: int) | Read(now: int)

  /** The commands on one key, the latest last. */
  datatype Commands = Begin | And(before: Commands, cmd: Command)

  /** `denied` holds the scores of the denied requests that are in the set, in order, and `evicted`
      those of the admitted requests that an undo has taken out of it. No command reads them. Two
      entries with one score are alike: an undo that pops a score takes out a denied request if
      there is one with that score, and an admitted one only otherwise. */
  datatype KeyState = KeyState(entries: seq<Entry>, log: seq<Admission>, denied: seq<int>, evicted: seq<int>)

  function RunPipeline(k: KeyState, q: Request): KeyState {
    var pruned := Prune(k.entries, Cutoff(q));
    var added := Insert(pruned, Entry(q.now, q.member));
    var denied := Recent(k.denied, Cutoff(q));
    if |pruned| >= q.limit then k.(entries := added, denied := denied + [q.now])
    else k.(entries := added, denied := denied, log := k.log + [Admission(q.now, q.limit)])
  }

  function RunUndo(k: KeyState): KeyState {
    if k.entries == [] then k
    else
      var popped := k.entries[|k.entries| - 1].score;
      if k.denied != [] && k.denied[|k.denied| - 1] == popped
      then k.(entries := PopMax(k.entries), denied := k.denied[..|k.denied| - 1])
      else k.(entries := PopMax(k.entries), evicted := k.evicted + [popped])
  }

  function Run(k: KeyState, cmd: Command): KeyState {
    match cmd
    case Pipeline(q) => RunPipeline(k, q)
    case Undo(_) => RunUndo(k)
    case Read(_) => k
  }

  function RunAll(cs: Commands): KeyState {
    match cs
    case Begin => KeyState([], [], [], [])
    case And(before, cmd) => Run(RunAll(before), cmd)
  }

  function TimeOf(cmd: Command): int {
    if cmd.Pipeline? then cmd.q.now else cmd.now
  }

  predicate ClockOk(cs: Commands) {
    cs.And? ==> ClockOk(cs.before) && (cs.before.And? ==> TimeOf(cs.before.cmd) <= TimeOf(cs.cmd))
  }

  predicate WindowOk(cs: Commands, window: nat) {
    window >= 1 && (cs.And? ==> WindowOk(cs.before, window)
                                && (cs.cmd.Pipeline? ==> cs.cmd.q.window >= window))
  }

  // ---- Where the two versions agree ----

  /** Each request's pipeline, followed at once by its undo and its read if it was denied. */
  function Serialize(qs: Trace): Commands {
    match qs
    case Start => Begin
    case Then(before, q) =>
      var cs := And(Serialize(before), Pipeline(q));
      if |Prune(ServeAll(before).entries, Cutoff(q))| >= q.limit then And(And(cs, Undo(q.now)), Read(q.now))
      else cs
  }

  lemma SerialStep(k: KeyState, h: History, q: Request)
    requires k.entries == h.entries && k.log == h.log && k.denied == [] && k.evicted == []
    requires NoneAfter(Scores(k.entries), q.now)
    ensures var k1 := RunPipeline(k, q);
            var k2 := if |Prune(h.entries, Cutoff(q))| >= q.limit then RunUndo(k1) else k1;
            k2.entries == Serve(h, q).entries && k2.log == Serve(h, q).log && k2.denied == [] && k2.evicted == []
  {
    var pruned := Prune(k.entries, Cutoff(q));
    PruneScores(k.entries, |k.entries|, Cutoff(q));
    RecentNoneAfter(Scores(k.entries), |k.entries|, Cutoff(q), q.now);
    InsertScores(pruned, Entry(q.now, q.member));
    var added := Insert(pruned, Entry(q.now, q.member));
    assert |Scores(added)| == |added| && Scores(added)[|added| - 1] == q.now;
    assert Recent(k.denied, Cutoff(q)) == [];
  }

  lemma SerialRun(qs: Trace, q: Request)
    ensures var k := RunPipeline(RunAll(Serialize(qs)), q);
            RunAll(Serialize(Then(qs, q))) ==
            (if |Prune(ServeAll(qs).entries, Cutoff(q))| >= q.limit then RunUndo(k) else k)
  {
    var piped := And(Serialize(qs), Pipeline(q));
    assert RunAll(piped) == RunPipeline(RunAll(Serialize(qs)), q);
    assert RunAll(And(piped, Undo(q.now))) == RunUndo(RunAll(piped));
  }

  /** When no command comes between a pipeline and its undo, the two-phase limiter is the atomic one,
      and no undo ever takes out an admitted request. */
  lemma {:induction false} SerialIsAtomic(qs: Trace, window: nat)
    requires Clock(qs) && WindowsFrom(qs, window)
    ensures RunAll(Serialize(qs)).entries == ServeAll(qs).entries
    ensures RunAll(Serialize(qs)).log == ServeAll(qs).log
    ensures RunAll(Serialize(qs)).denied == [] && RunAll(Serialize(qs)).evicted == []
  {
    if qs.Then? {
      SerialIsAtomic(qs.before, window);
      ServeRefines(qs.before, window);
      ScoresNoneAfter(qs.before, qs.q.now);
      SerialStep(RunAll(Serialize(qs.before)), ServeAll(qs.before), qs.q);
      SerialRun(qs.before, qs.q);
    }
  }

  // ---- The accounting ----

  /** Every admission later than `cutoff` is in the set, where the denied ones are not counted, or
      was evicted. */
  predicate Accounts(scores: seq<int>, denied: seq<int>, evicted: seq<int>, times: seq<int>, cutoff: int) {
    |Recent(times, cutoff)| == |Recent(scores, cutoff)| - |Recent(denied, cutoff)| + |Recent(evicted, cutoff)|
  }

  predicate KeyAccounts(k: KeyState, cutoff: int) {
    Accounts(Scores(k.entries), k.denied, k.evicted, Times(k.log), cutoff)
  }

  lemma PipelineScores(k: KeyState, q: Request)
    requires NoneAfter(Scores(k.entries), q.now)
    ensures var recent := Recent(Scores(k.entries), Cutoff(q));
            var k' := RunPipeline(k, q);
            && Scores(k'.entries) == recent + [q.now]
            && k'.log == (if |recent| < q.limit then k.log + [Admission(q.now, q.limit)] else k.log)
            && k'.denied == Recent(k.denied, Cutoff(q)) + (if |recent| < q.limit then [] else [q.now])
            && k'.evicted == k.evicted
  {
    var z := k.entries;
    PruneScores(z, |z|, Cutoff(q));
    RecentNoneAfter(Scores(z), |z|, Cutoff(q), q.now);
    InsertScores(Prune(z, Cutoff(q)), Entry(q.now, q.member));
    assert |Prune(z, Cutoff(q))| == |Scores(Prune(z, Cutoff(q)))|;
  }

  lemma UndoScores(z: seq<Entry>)
    requires z != []
    ensures Scores(z) == Scores(PopMax(z)) + [z[|z| - 1].score]
  {
  }

  lemma AdmitAccounts(scores: seq<int>, denied: seq<int>, evicted: seq<int>, times: seq<int>, now: int, c1: int,
                      c2: int)
    requires Accounts(scores, denied, evicted, times, c2) && c1 <= c2
    ensures Accounts(Recent(scores, c1) + [now], Recent(denied, c1), evicted, times + [now], c2)
    ensures Accounts(Recent(scores, c1) + [now], Recent(denied, c1) + [now], evicted, times, c2)
  {
    RecentRecent(scores, |scores|, c1, c2);
    RecentRecent(denied, |denied|, c1, c2);
    RecentSnoc(Recent(scores, c1), now, c2);
    RecentSnoc(Recent(denied, c1), now, c2);
    RecentSnoc(times, now, c2);
  }

  lemma PipelineAccounts(k: KeyState, q: Request, cutoff: int)
    requires NoneAfter(Scores(k.entries), q.now) && Cutoff(q) <= cutoff && KeyAccounts(k, cutoff)
    ensures KeyAccounts(RunPipeline(k, q), cutoff)
  {
    PipelineScores(k, q);
    AdmitAccounts(Scores(k.entries), k.denied, k.evicted, Times(k.log), q.now, Cutoff(q), cutoff);
    TimesSnoc(k.log, Admission(q.now, q.limit));
  }

  lemma RecentPop(times: seq<int>, cutoff: int)
    requires times != []
    ensures |Recent(times, cutoff)|
         == |Recent(times[..|times| - 1], cutoff)| + (if times[|times| - 1] > cutoff then 1 else 0)
  {
    assert times == times[..|times| - 1] + [times[|times| - 1]];
    RecentSnoc(times[..|times| - 1], times[|times| - 1], cutoff);
  }

  lemma UndoAccounts(k: KeyState, cutoff: int)
    requires KeyAccounts(k, cutoff)
    ensures KeyAccounts(RunUndo(k), cutoff)
  {
    if k.entries != [] {
      var popped := k.entries[|k.entries| - 1].score;
      UndoScores(k.entries);
      RecentSnoc(Scores(PopMax(k.entries)), popped, cutoff);
      RecentSnoc(k.evicted, popped, cutoff);
      if k.denied != [] {
        RecentPop(k.denied, cutoff);
      }
    }
  }

  predicate CommandsFollow(cs: Commands, now: int) {
    cs.And? ==> TimeOf(cs.cmd) <= now
  }

  lemma NoneAfterWeaken(times: seq<int>, t: int, t': int)
    requires NoneAfter(times, t) && t <= t'
    ensures NoneAfter(times, t')
  {
  }

  lemma RunNoneAfter(k: KeyState, cmd: Command)
    requires NoneAfter(Scores(k.entries), TimeOf(cmd)) && NoneAfter(k.evicted, TimeOf(cmd))
    ensures NoneAfter(Scores(Run(k, cmd).entries), TimeOf(cmd)) && NoneAfter(Run(k, cmd).evicted, TimeOf(cmd))
  {
    if cmd.Pipeline? {
      PipelineScores(k, cmd.q);
      RecentNoneAfter(Scores(k.entries), |Scores(k.entries)|, Cutoff(cmd.q), cmd.q.now);
    } else if cmd.Undo? && k.entries != [] {
      UndoScores(k.entries);
      assert Scores(k.entries)[|k.entries| - 1] == k.entries[|k.entries| - 1].score;
      forall i | 0 <= i < |k.entries| - 1
        ensures Scores(PopMax(k.entries))[i] <= cmd.now
      {
        assert Scores(k.entries)[i] == Scores(PopMax(k.entries))[i];
      }
    }
  }

  lemma {:induction false} AllNoneAfter(cs: Commands, now: int)
    requires ClockOk(cs) && CommandsFollow(cs, now)
    ensures NoneAfter(Scores(RunAll(cs).entries), now) && NoneAfter(RunAll(cs).evicted, now)
  {
    if cs.And? {
      AllNoneAfter(cs.before, TimeOf(cs.cmd));
      RunNoneAfter(RunAll(cs.before), cs.cmd);
      NoneAfterWeaken(Scores(RunAll(cs).entries), TimeOf(cs.cmd), now);
      NoneAfterWeaken(RunAll(cs).evicted, TimeOf(cs.cmd), now);
    }
  }

  /** The exact accounting: after any commands, the admissions of the whole log in any window that
      ends now or later are the entries of the set in it, without the denied ones, and the evicted
      admissions in it. */
  lemma {:induction false} ExactAccounting(cs: Commands, window: nat, now: int, cutoff: int)
    requires ClockOk(cs) && WindowOk(cs, window) && CommandsFollow(cs, now) && now - window * 1000 <= cutoff
    ensures var k := RunAll(cs);
            |Recent(Times(k.log), cutoff)|
            == |Recent(Scores(k.entries), cutoff)| - |Recent(k.denied, cutoff)| + |Recent(k.evicted, cutoff)|
  {
    if cs.And? {
      ExactAccounting(cs.before, window, TimeOf(cs.cmd), cutoff);
      AllNoneAfter(cs.before, TimeOf(cs.cmd));
      if cs.cmd.Pipeline? {
        PipelineAccounts(RunAll(cs.before), cs.cmd.q, cutoff);
      } else if cs.cmd.Undo? {
        UndoAccounts(RunAll(cs.before), cutoff);
      }
    }
  }

  // ---- The denied ones are in the set ----

  /** The denied scores are some of the set's, so that what is counted above is what it is called:
      `idx` says which. */
  ghost predicate Within(idx: seq<nat>, denied: seq<int>, scores: seq<int>) {
    && |idx| == |denied|
    && (forall i, j :: 0 <= i < j < |idx| ==> idx[i] < idx[j])
    && forall i :: 0 <= i < |idx| ==> idx[i] < |scores| && scores[idx[i]] == denied[i]
  }

  ghost predicate Among(denied: seq<int>, scores: seq<int>) {
    exists idx :: Within(idx, denied, scores)
  }

  lemma AmongSnoc(denied: seq<int>, scores: seq<int>, x: int)
    requires Among(denied, scores)
    ensures Among(denied, scores + [x]) && Among(denied + [x], scores + [x])
  {
    var idx: seq<nat> :| Within(idx, denied, scores);
    assert Within(idx, denied, scores + [x]);
    var more: seq<nat> := idx + [|scores|];
    assert Within(more, denied + [x], scores + [x]);
  }

  lemma AmongPopBoth(denied: seq<int>, x: int, scores: seq<int>, y: int)
    requires Among(denied + [x], scores + [y])
    ensures Among(denied, scores)
  {
    var idx: seq<nat> :| Within(idx, denied + [x], scores + [y]);
    var n := |denied|;
    assert forall i :: 0 <= i < n ==> idx[i] < idx[n] <= |scores| && (denied + [x])[i] == denied[i];
    assert Within(idx[..n], denied, scores);
  }

  lemma AmongPopOne(denied: seq<int>, scores: seq<int>, y: int)
    requires Among(denied, scores + [y]) && (denied != [] ==> denied[|denied| - 1] != y)
    ensures Among(denied, scores)
  {
    var idx: seq<nat> :| Within(idx, denied, scores + [y]);
    var n := |denied|;
    assert n > 0 ==> idx[n - 1] < |scores|;
    assert forall i :: 0 <= i < n - 1 ==> idx[i] < idx[n - 1];
    assert Within(idx, denied, scores);
  }

  lemma {:induction false} AmongRecent(denied: seq<int>, scores: seq<int>, n: nat, m: nat, idx: seq<nat>, cutoff: int)
    requires Within(idx, denied, scores) && n <= |denied| && m <= |scores|
    requires forall i :: 0 <= i < n ==> idx[i] < m
    ensures Among(RecentTo(denied, n, cutoff), RecentTo(scores, m, cutoff))
    decreases m
  {
    if n == 0 {
      assert Within([], [], RecentTo(scores, m, cutoff));
    } else if idx[n - 1] == m - 1 {
      assert forall i :: 0 <= i < n - 1 ==> idx[i] < idx[n - 1];
      AmongRecent(denied, scores, n - 1, m - 1, idx, cutoff);
      AmongSnoc(RecentTo(denied, n - 1, cutoff), RecentTo(scores, m - 1, cutoff), scores[m - 1]);
    } else {
      assert forall i :: 0 <= i < n - 1 ==> idx[i] < idx[n - 1];
      AmongRecent(denied, scores, n, m - 1, idx, cutoff);
      AmongSnoc(RecentTo(denied, n, cutoff), RecentTo(scores, m - 1, cutoff), scores[m - 1]);
    }
  }

  lemma PipelineAmong(k: KeyState, q: Request)
    requires NoneAfter(Scores(k.entries), q.now) && Among(k.denied, Scores(k.entries))
    ensures Among(RunPipeline(k, q).denied, Scores(RunPipeline(k, q).entries))
  {
    PipelineScores(k, q);
    var idx: seq<nat> :| Within(idx, k.denied, Scores(k.entries));
    AmongRecent(k.denied, Scores(k.entries), |k.denied|, |k.entries|, idx, Cutoff(q));
    AmongSnoc(Recent(k.denied, Cutoff(q)), Recent(Scores(k.entries), Cutoff(q)), q.now);
  }

  lemma UndoAmong(k: KeyState)
    requires Among(k.denied, Scores(k.entries))
    ensures Among(RunUndo(k).denied, Scores(RunUndo(k).entries))
  {
    if k.entries != [] {
      var popped := k.entries[|k.entries| - 1].score;
      UndoScores(k.entries);
      if k.denied != [] && k.denied[|k.denied| - 1] == popped {
        var d := |k.denied| - 1;
        assert k.denied == k.denied[..d] + [popped];
        AmongPopBoth(k.denied[..d], popped, Scores(PopMax(k.entries)), popped);
      } else {
        AmongPopOne(k.denied, Scores(PopMax(k.entries)), popped);
      }
    }
  }

  /** After any commands the denied scores are scores of the set. */
  lemma {:induction false} DeniedAreInSet(cs: Commands)
    requires ClockOk(cs)
    ensures Among(RunAll(cs).denied, Scores(RunAll(cs).entries))
  {
    if cs.And? {
      DeniedAreInSet(cs.before);
      AllNoneAfter(cs.before, TimeOf(cs.cmd));
      if cs.cmd.Pipeline? {
        PipelineAmong(RunAll(cs.before), cs.cmd.q);
      } else if cs.cmd.Undo? {
        UndoAmong(RunAll(cs.before));
      }
    } else {
      assert Within([], [], Scores([]));
    }
  }

  // ---- When a request is admitted beyond its limit ----

  /** The pipeline admits the request. */
  predicate Admits(k: KeyState, q: Request) {
    |RunPipeline(k, q).log| > |k.log|
  }

  /** Exactly when a request is admitted although its window holds its limit of admissions: iff the
      entries of the set in the window are fewer than the limit, and so many more admissions were
      evicted in it than denied requests are still there. */
  lemma OverAdmitsIff(cs: Commands, window: nat, q: Request)
    requires ClockOk(cs) && WindowOk(cs, window) && CommandsFollow(cs, q.now) && q.window == window
    ensures var k := RunAll(cs);
            var inSet := |Recent(Scores(k.entries), Cutoff(q))|;
            var denied := |Recent(k.denied, Cutoff(q))|;
            var evicted := |Recent(k.evicted, Cutoff(q))|;
            (Admits(k, q) && |Recent(Times(k.log), Cutoff(q))| >= q.limit)
            <==> inSet < q.limit <= inSet - denied + evicted
  {
    AllNoneAfter(cs, q.now);
    PipelineScores(RunAll(cs), q);
    ExactAccounting(cs, window, q.now, Cutoff(q));
  }

  /** The converse error: a request is denied although its window holds fewer admissions. */
  lemma OverDeniesIff(cs: Commands, window: nat, q: Request)
    requires ClockOk(cs) && WindowOk(cs, window) && CommandsFollow(cs, q.now) && q.window == window
    ensures var k := RunAll(cs);
            var inSet := |Recent(Scores(k.entries), Cutoff(q))|;
            var denied := |Recent(k.denied, Cutoff(q))|;
            var evicted := |Recent(k.evicted, Cutoff(q))|;
            (!Admits(k, q) && |Recent(Times(k.log), Cutoff(q))| < q.limit)
            <==> inSet - denied + evicted < q.limit <= inSet
  {
    AllNoneAfter(cs, q.now);
    PipelineScores(RunAll(cs), q);
    ExactAccounting(cs, window, q.now, Cutoff(q));
  }

  // ---- What is left of the bound ----

  function CountTo(times: seq<int>, n: nat, lo: int, hi: int): nat
    requires n <= |times|
  {
    if n == 0 then 0 else CountTo(times, n - 1, lo, hi) + (if lo < times[n - 1] <= hi then 1 else 0)
  }

  /** How many of the times lie in `(lo, hi]`. */
  function CountIn(times: seq<int>, lo: int, hi: int): nat {
    CountTo(times, |times|, lo, hi)
  }

  lemma {:induction false} CountPrefix(a: seq<int>, b: seq<int>, n: nat, lo: int, hi: int)
    requires n <= |a| && n <= |b| && forall i :: 0 <= i < n ==> a[i] == b[i]
    ensures CountTo(a, n, lo, hi) == CountTo(b, n, lo, hi)
  {
    if n > 0 {
      CountPrefix(a, b, n - 1, lo, hi);
    }
  }

  lemma CountSnoc(times: seq<int>, x: int, lo: int, hi: int)
    ensures CountIn(times + [x], lo, hi) >= CountIn(times, lo, hi)
  {
    CountPrefix(times, times + [x], |times|, lo, hi);
  }

  lemma {:induction false} CountAll(times: seq<int>, n: nat, lo: int, hi: int)
    requires n <= |times| && forall i :: 0 <= i < n ==> times[i] <= hi
    ensures CountTo(times, n, lo, hi) == |RecentTo(times, n, lo)|
  {
    if n > 0 {
      CountAll(times, n - 1, lo, hi);
    }
  }

  /** One pipeline keeps the bound. */
  lemma BoundStep(k: KeyState, q: Request, lo: int, t: int, l: int)
    requires NoneAfter(Scores(k.entries), q.now) && NoneAfter(k.evicted, q.now)
    requires q.now <= t ==> Cutoff(q) <= lo && KeyAccounts(k, lo)
    requires InWindow(k.log, lo, t, l) <= Max(l, 0) + CountIn(k.evicted, lo, t)
    ensures var k' := RunPipeline(k, q);
            InWindow(k'.log, lo, t, l) <= Max(l, 0) + CountIn(k'.evicted, lo, t)
  {
    PipelineScores(k, q);
    InWindowSnoc(k.log, Admission(q.now, q.limit), lo, t, l);
    if q.now <= t {
      InWindowRecent(k.log, |k.log|, lo, t, l);
      RecentBound(Scores(k.entries), |k.entries|, Cutoff(q), lo);
      CountAll(k.evicted, |k.evicted|, lo, t);
    }
  }

  /** The window bound of the limiter as coded: with requests interleaved in any way between
      pipelines and undos, every interval `(t - window, t]` holds at most `l` admissions under limits
      of at most `l`, and one more for each of its admissions that an undo took out of the set. */
  lemma {:induction false} EvictionBound(cs: Commands, window: nat, t: int, l: int)
    requires ClockOk(cs) && WindowOk(cs, window)
    ensures InWindow(RunAll(cs).log, t - window * 1000, t, l)
         <= Max(l, 0) + CountIn(RunAll(cs).evicted, t - window * 1000, t)
  {
    if cs.And? {
      var k, lo := RunAll(cs.before), t - window * 1000;
      EvictionBound(cs.before, window, t, l);
      AllNoneAfter(cs.before, TimeOf(cs.cmd));
      if cs.cmd.Pipeline? {
        if cs.cmd.q.now <= t {
          ExactAccounting(cs.before, window, cs.cmd.q.now, lo);
        }
        BoundStep(k, cs.cmd.q, lo, t, l);
      } else if cs.cmd.Undo? && k.entries != [] {
        CountSnoc(k.evicted, k.entries[|k.entries| - 1].score, lo, t);
      }
    }
  }

  /** So the plain bound holds as long as no undo takes out an admitted request. */
  lemma PlainBound(cs: Commands, window: nat, t: int, l: int)
    requires ClockOk(cs) && WindowOk(cs, window) && RunAll(cs).evicted == []
    ensures InWindow(RunAll(cs).log, t - window * 1000, t, l) <= Max(l, 0)
  {
    EvictionBound(cs, window, t, l);
  }

  // ---- The bound itself is lost ----

  /** The first `n` of `times` are pruned, the others stay. */
  lemma RecentIs(times: seq<int>, cutoff: int, n: nat, kept: seq<int>)
    requires n <= |times| && |kept| == |times| - n
    requires forall i :: 0 <= i < n ==> times[i] <= cutoff
    requires forall i :: n <= i < |times| ==> times[i] > cutoff && kept[i - n] == times[i]
    ensures Recent(times, cutoff) == kept
  {
    RecentKeeps(times, |times|, cutoff, n);
    forall j | 0 <= j < |kept|
      ensures Recent(times, cutoff)[j] == kept[j]
    {
      assert times[j + n] == kept[j + n - n];
      assert RecentTo(times, |times|, cutoff)[j + n - n] == times[j + n];
    }
  }

  lemma {:induction false} RecentKeeps(times: seq<int>, m: nat, cutoff: int, n: nat)
    requires n <= m <= |times|
    requires forall i :: 0 <= i < n ==> times[i] <= cutoff
    requires forall i :: n <= i < m ==> times[i] > cutoff
    ensures |RecentTo(times, m, cutoff)| == m - n
    ensures forall i :: n <= i < m ==> RecentTo(times, m, cutoff)[i - n] == times[i]
  {
    if m > n {
      RecentKeeps(times, m - 1, cutoff, n);
    } else {
      RecentNone(times, m, cutoff);
    }
  }

  function At(now: int, member: Member): Request {
    Request(now, member, 2, 60)
  }

  predicate Shows(cs: Commands, scores: seq<int>, log: seq<Admission>) {
    Scores(RunAll(cs).entries) == scores && RunAll(cs).log == log
  }

  /** One pipeline at limit 2 and window 60: the first `n` scores are pruned, `kept` stay. */
  lemma Step(cs: Commands, now: int, member: Member, n: nat, scores: seq<int>, kept: seq<int>, log: seq<Admission>)
    requires Shows(cs, scores, log) && NoneAfter(scores, now)
    requires n <= |scores| && |kept| == |scores| - n
    requires forall i :: 0 <= i < n ==> scores[i] <= now - 60000
    requires forall i :: n <= i < |scores| ==> scores[i] > now - 60000 && kept[i - n] == scores[i]
    ensures Shows(And(cs, Pipeline(At(now, member))), kept + [now],
                  if |kept| < 2 then log + [Admission(now, 2)] else log)
  {
    RecentIs(scores, now - 60000, n, kept);
    PipelineScores(RunAll(cs), At(now, member));
  }

  lemma StepUndo(cs: Commands, now: int, scores: seq<int>, x: int, log: seq<Admission>)
    requires Shows(cs, scores + [x], log)
    ensures Shows(And(cs, Undo(now)), scores, log)
  {
    PopScores(RunAll(cs).entries, scores, x);
  }

  function One(): Commands {
    And(Begin, Pipeline(At(0, 0)))
  }

  function Two(): Commands {
    And(One(), Pipeline(At(1, 1)))
  }

  function Three(): Commands {
    And(Two(), Pipeline(At(59999, 2)))
  }

  const LOG1 := [Admission(0, 2)]
  const LOG2 := [Admission(0, 2), Admission(1, 2)]

  lemma OneShows()
    ensures Shows(One(), [0], LOG1)
  {
    var k := RunPipeline(RunAll(Begin), At(0, 0));
    assert k.entries == [Entry(0, 0)] && k.log == LOG1;
    assert Scores(k.entries) == [0];
  }

  lemma TwoShows()
    ensures Shows(Two(), [0, 1], LOG2)
  {
    OneShows();
    Step(One(), 1, 1, 0, [0], [0], LOG1);
    assert [0] + [1] == [0, 1] && LOG1 + [Admission(1, 2)] == LOG2;
  }

  lemma ThreeShows()
    ensures Shows(Three(), [0, 1, 59999], LOG2)
  {
    TwoShows();
    Step(Two(), 59999, 2, 0, [0, 1], [0, 1], LOG2);
    assert [0, 1] + [59999] == [0, 1, 59999];
  }

  /** The undo of the third request comes late: it removes the admission of the fourth, which was
      let in after a prune. */
  function LateUndo(): Commands {
    And(And(Three(), Pipeline(At(60001, 3))), Undo(60002))
  }

  lemma LateUndoEvicts()
    ensures Shows(LateUndo(), [59999], LOG2 + [Admission(60001, 2)])
  {
    ThreeShows();
    Step(Three(), 60001, 3, 2, [0, 1, 59999], [59999], LOG2);
    StepUndo(And(Three(), Pipeline(At(60001, 3))), 60002, [59999], 60001, LOG2 + [Admission(60001, 2)]);
  }

  function Fifth(): Commands {
    And(LateUndo(), Pipeline(At(60003, 4)))
  }

  function Overrun(): Commands {
    And(Fifth(), Pipeline(At(119999, 5)))
  }

  const LOG3 := LOG2 + [Admission(60001, 2)]

  lemma FifthShows()
    ensures Shows(Fifth(), [59999] + [60003], LOG3 + [Admission(60003, 2)])
  {
    LateUndoEvicts();
    Step(LateUndo(), 60003, 4, 0, [59999], [59999], LOG3);
  }

  /** The older of two entries has left the window, and the request is admitted. */
  lemma StepOne(cs: Commands, now: int, member: Member, a: int, b: int, log: seq<Admission>)
    requires Shows(cs, [a] + [b], log) && a <= now - 60000 < b <= now
    ensures Shows(And(cs, Pipeline(At(now, member))), [b] + [now], log + [Admission(now, 2)])
  {
    var scores := [a] + [b];
    assert scores[0] == a && scores[1] == b && |scores| == 2;
    Step(cs, now, member, 1, scores, [b], log);
  }

  lemma OverrunShows()
    ensures Shows(Overrun(), [60003] + [119999], LOG3 + [Admission(60003, 2)] + [Admission(119999, 2)])
  {
    FifthShows();
    StepOne(Fifth(), 119999, 5, 59999, 60003, LOG3 + [Admission(60003, 2)]);
  }

  lemma OverrunCount(lo: int, hi: int)
    requires lo == 59999 && hi == 119999
    ensures InWindow(LOG3 + [Admission(60003, 2)] + [Admission(119999, 2)], lo, hi, 2) == 3
  {
    assert InWindowTo(LOG2, 1, lo, hi, 2) == 0 && InWindow(LOG2, lo, hi, 2) == 0;
    InWindowSnoc(LOG2, Admission(60001, 2), lo, hi, 2);
    InWindowSnoc(LOG3, Admission(60003, 2), lo, hi, 2);
    InWindowSnoc(LOG3 + [Admission(60003, 2)], Admission(119999, 2), lo, hi, 2);
  }

  lemma OverrunOk()
    ensures ClockOk(Overrun()) && WindowOk(Overrun(), 60)
  {
  }

  /** The window bound belongs to the atomic limiter. With limit 2 and window 60 the two-phase
      one, its one undo only three milliseconds late, admits three requests in one window. */
  lemma TwoPhaseOverAdmits()
    ensures ClockOk(Overrun()) && WindowOk(Overrun(), 60)
    ensures InWindow(RunAll(Overrun()).log, 119999 - 60000, 119999, 2) == 3
  {
    OverrunOk();
    OverrunShows();
    OverrunCount(119999 - 60000, 119999);
  }
}
