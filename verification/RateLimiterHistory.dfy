/**
The limiter over whole histories of requests, against a log that remembers every admission.
*/
module RateLimiterHistory {
  import opened Wrappers
  import opened RateLimiter
  import opened RateWindow
  import opened Arithmetic

  /** The sorted set, every admission so far, and the answers given. */
  datatype History = History(entries: seq<Entry>, log: seq<Admission>, decisions: seq<Decision>)

  function Record(h: History, q: Request, o: Outcome): History {
    History(o.entries,
            if o.decision.Allowed? then h.log + [Admission(q.now, q.limit)] else h.log,
            h.decisions + [o.decision])
  }

  function Serve(h: History, q: Request): History {
    Record(h, q, Check(h.entries, q.now, q.member, q.limit, q.window))
  }

  function ServeAll(qs: Trace): History {
    match qs
    case Start => History([], [], [])
    case Then(before, q) => Serve(ServeAll(before), q)
  }

  /** The answer to a request that comes after `qs`. */
  function Answer(qs: Trace, now: int, member: Member, limit: int, window: nat): Decision {
    Check(ServeAll(qs).entries, now, member, limit, window).decision
  }

  // ---- The scores of the sorted set ----

  lemma {:induction false} PruneScores(z: seq<Entry>, n: nat, cutoff: int)
    requires n <= |z|
    ensures Scores(PruneTo(z, n, cutoff)) == RecentTo(Scores(z), n, cutoff)
  {
    if n > 0 {
      PruneScores(z, n - 1, cutoff);
    }
  }

  /** A new entry with the highest score comes last by score, wherever it lands among ties. */
  lemma {:induction false} InsertScoresTo(z: seq<Entry>, n: nat, e: Entry)
    requires n <= |z| && forall i :: 0 <= i < n ==> z[i].score <= e.score
    ensures |InsertTo(z, n, e)| == n + 1 && InsertTo(z, n, e)[n].score == e.score
    ensures forall i :: 0 <= i < n ==> InsertTo(z, n, e)[i].score == z[i].score
  {
    if n > 0 && !Less(z[n - 1], e) {
      InsertScoresTo(z, n - 1, e);
    }
  }

  lemma InsertScores(z: seq<Entry>, e: Entry)
    requires NoneAfter(Scores(z), e.score)
    ensures Scores(Insert(z, e)) == Scores(z) + [e.score]
  {
    assert forall i :: 0 <= i < |z| ==> z[i].score == Scores(z)[i];
    InsertScoresTo(z, |z|, e);
  }

  lemma PopScores(z: seq<Entry>, scores: seq<int>, x: int)
    requires Scores(z) == scores + [x]
    ensures Scores(PopMax(z)) == scores && |PopMax(z)| == |scores|
  {
    assert |Scores(z)| == |z|;
    assert forall i :: 0 <= i < |scores| ==> Scores(PopMax(z))[i] == Scores(z)[i] == scores[i];
  }

  /** The undo of a denied request restores the pruned scores, equal timestamps included. */
  lemma UndoRestoresScores(z: seq<Entry>, now: int, member: Member)
    requires NoneAfter(Scores(z), now)
    ensures Scores(PopMax(Insert(z, Entry(now, member)))) == Scores(z)
  {
    InsertScores(z, Entry(now, member));
    PopScores(Insert(z, Entry(now, member)), Scores(z), now);
  }

  /** What one check answers and does to the scores. */
  lemma CheckScores(z: seq<Entry>, now: int, member: Member, limit: int, window: nat)
    requires NoneAfter(Recent(Scores(z), now - window * 1000), now)
    ensures var o := Check(z, now, member, limit, window);
            var scores := Recent(Scores(z), now - window * 1000);
            && (o.decision.Allowed? <==> |scores| < limit)
            && Scores(o.entries) == (if |scores| < limit then scores + [now] else scores)
            && (o.decision.Denied? ==>
                  o.decision.retryAfter == RetryAfter(if scores == [] then now else scores[0], now, window))
  {
    var p := Prune(z, now - window * 1000);
    var scores := Recent(Scores(z), now - window * 1000);
    PruneScores(z, |z|, now - window * 1000);
    InsertScores(p, Entry(now, member));
    var added := Insert(p, Entry(now, member));
    PopScores(added, scores, now);
    assert |p| == |Scores(p)|;
    assert |p| > 0 ==> PopMax(added)[0].score == Scores(PopMax(added))[0];
  }

  // ---- Refinement ----

  /** The sorted set keeps exactly the scores of the abstract limiter, and admits the same. */
  predicate Refines(h: History, w: Window) {
    Scores(h.entries) == w.scores && h.log == w.log
  }

  lemma RecordRefines(h: History, w: Window, q: Request, o: Outcome)
    requires Refines(h, w)
    requires var scores := Recent(w.scores, q.now - q.window * 1000);
             && (o.decision.Allowed? <==> |scores| < q.limit)
             && Scores(o.entries) == (if |scores| < q.limit then scores + [q.now] else scores)
    ensures Refines(Record(h, q, o), Admit(w, q))
  {
  }

  lemma StepRefines(h: History, w: Window, q: Request)
    requires Refines(h, w) && NoneAfter(Recent(w.scores, q.now - q.window * 1000), q.now)
    ensures Refines(Serve(h, q), Admit(w, q))
  {
    CheckScores(h.entries, q.now, q.member, q.limit, q.window);
    RecordRefines(h, w, q, Check(h.entries, q.now, q.member, q.limit, q.window));
  }

  lemma {:induction false} ServeRefines(qs: Trace, window: nat)
    requires Clock(qs) && WindowsFrom(qs, window)
    ensures Refines(ServeAll(qs), AdmitAll(qs))
  {
    if qs.Then? {
      var q := qs.q;
      ServeRefines(qs.before, window);
      ScoresNoneAfter(qs.before, q.now);
      RecentNoneAfter(AdmitAll(qs.before).scores, |AdmitAll(qs.before).scores|, Cutoff(q), q.now);
      StepRefines(ServeAll(qs.before), AdmitAll(qs.before), q);
    }
  }

  /** Limiter refinement: after any history on the key, a request whose window is not longer than the
      others' is admitted iff fewer than its limit admissions of the whole log lie in
      `(now - window, now]`, and a denied one is told to retry by the oldest of them. */
  lemma AdmittedIff(qs: Trace, window: nat, now: int, member: Member, limit: int)
    requires Clock(qs) && WindowsFrom(qs, window) && Follows(qs, now)
    ensures var log := ServeAll(qs).log;
            var recent := Recent(Times(log), now - window * 1000);
            var d := Answer(qs, now, member, limit, window);
            && (d.Allowed? <==> |recent| < limit)
            && (d.Denied? ==>
                  d.retryAfter == RetryAfter(if recent == [] then now else recent[0], now, window))
  {
    ServeRefines(qs, window);
    TracksAt(qs, window, now);
    ScoresNoneAfter(qs, now);
    RecentNoneAfter(AdmitAll(qs).scores, |AdmitAll(qs).scores|, now - window * 1000, now);
    CheckScores(ServeAll(qs).entries, now, member, limit, window);
  }

  /** After a request whose window is not longer than the others', the scores in the sorted set are the
      admission times its prune would keep. */
  lemma SetHoldsRecent(qs: Trace)
    requires Clock(qs) && qs.Then? && WindowsFrom(qs.before, qs.q.window)
    ensures Scores(ServeAll(qs).entries)
         == Recent(Times(ServeAll(qs).log), qs.q.now - qs.q.window * 1000)
  {
    ServeRefines(qs, qs.q.window);
    LastKept(qs);
  }

  /** Window bound: with `window` at most every window used on the key, every interval
      `(t - window, t]`, for every `t`, holds at most `l` admissions made under limits of at most `l`.
      With `l` the largest limit in use this bounds all admissions; with a smaller one it bounds those
      of the stricter routes. */
  lemma WindowBound(qs: Trace, window: nat, t: int, l: int)
    requires Clock(qs) && WindowsFrom(qs, window)
    ensures InWindow(ServeAll(qs).log, t - window * 1000, t, l) <= Max(l, 0)
  {
    ServeRefines(qs, window);
    AdmitBound(qs, window, t, l);
  }

  // ---- Sizes ----

  lemma {:induction false} InsertSize(z: seq<Entry>, n: nat, e: Entry)
    requires n <= |z|
    ensures |InsertTo(z, n, e)| == n + 1
  {
    if n > 0 && !Less(z[n - 1], e) {
      InsertSize(z, n - 1, e);
    }
  }

  /** How many entries a check leaves. */
  lemma CheckSize(z: seq<Entry>, q: Request)
    ensures var o := Check(z, q.now, q.member, q.limit, q.window);
            var kept := |Prune(z, Cutoff(q))|;
            && (o.decision.Allowed? <==> kept < q.limit)
            && |o.entries| == (if kept < q.limit then kept + 1 else kept)
  {
    var pruned := Prune(z, Cutoff(q));
    InsertSize(pruned, |pruned|, Entry(q.now, q.member));
  }

  // ---- The retry hint ----

  lemma {:induction false} FromShorter(qs: Trace, window: nat, shorter: nat)
    requires WindowsFrom(qs, window) && 1 <= shorter <= window
    ensures WindowsFrom(qs, shorter)
  {
    if qs.Then? {
      FromShorter(qs.before, window, shorter);
    }
  }

  /** The hint of a denial is between one second and the window, whatever windows share the key. */
  lemma RetryAfterRange(qs: Trace, window: nat, now: int, member: Member, limit: int)
    requires Clock(qs) && WindowsFrom(qs, 1) && Follows(qs, now) && window >= 1
    ensures match Answer(qs, now, member, limit, window)
            case Allowed => true
            case Denied(ra) => 1 <= ra <= window
  {
    var cutoff := now - window * 1000;
    ServeRefines(qs, 1);
    ScoresNoneAfter(qs, now);
    RecentNoneAfter(AdmitAll(qs).scores, |AdmitAll(qs).scores|, cutoff, now);
    CheckScores(ServeAll(qs).entries, now, member, limit, window);
    OldestOf(AdmitAll(qs).scores, cutoff, now);
  }

  lemma OldestOf(times: seq<int>, cutoff: int, now: int)
    requires NoneAfter(times, now)
    ensures Recent(times, cutoff) != [] ==> cutoff < Recent(times, cutoff)[0] <= now
  {
    RecentIn(times, |times|, cutoff);
    RecentNoneAfter(times, |times|, cutoff, now);
  }

  lemma OldestInWindow(qs: Trace, window: nat, now: int)
    requires Clock(qs) && WindowsFrom(qs, window) && Follows(qs, now)
    ensures var recent := Recent(Times(ServeAll(qs).log), now - window * 1000);
            recent != [] ==> now - window * 1000 < recent[0] <= now
  {
    ServeRefines(qs, window);
    LogOk(qs, now);
    OldestOf(Times(AdmitAll(qs).log), now - window * 1000, now);
  }

  lemma LeftWindow(times: seq<int>, limit: int, c1: int, c2: int)
    requires Ordered(times) && c1 <= c2 && limit >= 1 && |Recent(times, c1)| == limit
    ensures |Recent(times, c2)| < limit <==> Recent(times, c1)[0] <= c2
  {
    CutoffDrops(times, |times|, c1, c2);
  }

  lemma AllowedIff(qs: Trace, window: nat, now: int, member: Member, limit: int, cutoff: int)
    requires Clock(qs) && WindowsFrom(qs, window) && Follows(qs, now) && cutoff == now - window * 1000
    ensures Answer(qs, now, member, limit, window).Allowed?
       <==> |Recent(Times(ServeAll(qs).log), cutoff)| < limit
  {
    AdmittedIff(qs, window, now, member, limit);
  }

  lemma DeniedIsFull(qs: Trace, window: nat, limit: int, now: int, member: Member, cutoff: int)
    requires Clock(qs) && WindowsFrom(qs, window) && Follows(qs, now) && OneLimit(qs, limit) && limit >= 1
    requires Answer(qs, now, member, limit, window).Denied? && cutoff == now - window * 1000
    ensures |Recent(Times(ServeAll(qs).log), cutoff)| == limit
    ensures Ordered(Times(ServeAll(qs).log))
  {
    AllowedIff(qs, window, now, member, limit, cutoff);
    ServeRefines(qs, window);
    FullWindow(qs, window, limit, now);
    LogOk(qs, now);
  }

  lemma RetryAllowed(qs: Trace, window: nat, limit: int, now: int, member: Member, later: int,
                     member': Member, c1: int, c2: int)
    requires Clock(qs) && WindowsFrom(qs, window) && Follows(qs, now) && OneLimit(qs, limit)
    requires limit >= 1 && now <= later && c1 == now - window * 1000 && c2 == later - window * 1000
    requires Answer(qs, now, member, limit, window).Denied?
    ensures |Recent(Times(ServeAll(qs).log), c1)| == limit
    ensures Answer(qs, later, member', limit, window).Allowed?
       <==> Recent(Times(ServeAll(qs).log), c1)[0] <= c2
  {
    DeniedIsFull(qs, window, limit, now, member, c1);
    AllowedIff(qs, window, later, member', limit, c2);
    LeftWindow(Times(ServeAll(qs).log), limit, c1, c2);
  }

  /** When to retry, exactly. One limit on the key, a denial at `now`, nothing admitted since: a
      request at `later` is admitted iff the oldest admission of the denial's window has left. */
  lemma RetryAdmittedIff(qs: Trace, window: nat, limit: int, now: int, member: Member,
                         later: int, member': Member)
    requires Clock(qs) && WindowsFrom(qs, window) && Follows(qs, now) && OneLimit(qs, limit)
    requires limit >= 1 && now <= later
    requires Answer(qs, now, member, limit, window).Denied?
    ensures var recent := Recent(Times(ServeAll(qs).log), now - window * 1000);
            && |recent| == limit
            && (Answer(qs, later, member', limit, window).Allowed? <==> recent[0] + window * 1000 <= later)
  {
    RetryAllowed(qs, window, limit, now, member, later, member', now - window * 1000, later - window * 1000);
  }

  /** One second past the hint a request is admitted, if nothing else was admitted meanwhile. */
  lemma RetryAfterSuffices(qs: Trace, window: nat, limit: int, now: int, member: Member,
                           later: int, member': Member)
    requires Clock(qs) && WindowsFrom(qs, window) && Follows(qs, now) && OneLimit(qs, limit)
    requires limit >= 1
    requires Answer(qs, now, member, limit, window).Denied?
    requires later >= now + (Answer(qs, now, member, limit, window).retryAfter + 1) * 1000
    ensures Answer(qs, later, member', limit, window).Allowed?
  {
    FromShorter(qs, window, 1);
    RetryAfterRange(qs, window, now, member, limit);
    RetryAdmittedIff(qs, window, limit, now, member, later, member');
    AdmittedIff(qs, window, now, member, limit);
    OldestInWindow(qs, window, now);
  }

  /** When the hint itself is enough. The milliseconds until the oldest admission leaves the window
      are rounded down to seconds: a request exactly `retryAfter` seconds after the denial is
      admitted iff they are whole seconds, or at most one. (An admission at time 0 is taken for
      none, and the hint is then the whole window.) */
  lemma HintSufficesIff(qs: Trace, window: nat, limit: int, now: int, member: Member, member': Member)
    requires Clock(qs) && WindowsFrom(qs, window) && Follows(qs, now) && OneLimit(qs, limit)
    requires limit >= 1 && Answer(qs, now, member, limit, window).Denied?
    ensures var recent := Recent(Times(ServeAll(qs).log), now - window * 1000);
            recent != [] &&
            var left := recent[0] + window * 1000 - now;
            var later := now + Answer(qs, now, member, limit, window).retryAfter * 1000;
            Answer(qs, later, member', limit, window).Allowed?
            <==> recent[0] == 0 || left <= 1000 || left % 1000 == 0
  {
    var oldest := DeniedOldest(qs, window, limit, now, member);
    var hint := Answer(qs, now, member, limit, window).retryAfter;
    FromShorter(qs, window, 1);
    RetryAfterRange(qs, window, now, member, limit);
    RetryAdmittedIff(qs, window, limit, now, member, now + hint * 1000, member');
    HintSeconds(oldest, now, window);
  }

  /** What a denial's hint is made of. */
  lemma DeniedOldest(qs: Trace, window: nat, limit: int, now: int, member: Member) returns (oldest: int)
    requires Clock(qs) && WindowsFrom(qs, window) && Follows(qs, now) && OneLimit(qs, limit)
    requires limit >= 1 && Answer(qs, now, member, limit, window).Denied?
    ensures var recent := Recent(Times(ServeAll(qs).log), now - window * 1000);
            recent != [] && oldest == recent[0] && now - window * 1000 < oldest <= now
    ensures Answer(qs, now, member, limit, window).retryAfter == RetryAfter(oldest, now, window)
  {
    RetryAdmittedIff(qs, window, limit, now, member, now, member);
    AdmittedIff(qs, window, now, member, limit);
    OldestInWindow(qs, window, now);
    oldest := Recent(Times(ServeAll(qs).log), now - window * 1000)[0];
  }

  lemma HintSeconds(oldest: int, now: int, window: nat)
    requires now - window * 1000 < oldest <= now
    ensures oldest + window * 1000 <= now + RetryAfter(oldest, now, window) * 1000
       <==> oldest == 0 || oldest + window * 1000 - now <= 1000 || (oldest + window * 1000 - now) % 1000 == 0
  {
  }

  // ---- Different windows on one key ----

  /** `n` requests at time 0. */
  function Burst(n: nat, limit: int, window: nat): Trace {
    if n == 0 then Start else Then(Burst(n - 1, limit, window), Request(0, n - 1, limit, window))
  }

  lemma BurstStep(w: Window, q: Request)
    requires w.scores == Times(w.log) && q.now == 0 && q.window >= 1 && |w.log| < q.limit
    requires forall i :: 0 <= i < |w.log| ==> w.log[i] == Admission(0, q.limit)
    ensures var w' := Admit(w, q);
            w'.scores == Times(w'.log) && w'.log == w.log + [Admission(0, q.limit)]
  {
    RecentEvery(w.scores, 0 - q.window * 1000);
    TimesSnoc(w.log, Admission(0, q.limit));
  }

  lemma {:induction false} BurstAdmitted(n: nat, limit: int, window: nat)
    requires n <= limit && window >= 1
    ensures Clock(Burst(n, limit, window)) && WindowsFrom(Burst(n, limit, window), window)
    ensures Follows(Burst(n, limit, window), 0)
    ensures var w := AdmitAll(Burst(n, limit, window));
            && |w.log| == n && w.scores == Times(w.log)
            && forall i :: 0 <= i < n ==> w.log[i] == Admission(0, limit)
  {
    if n > 0 {
      BurstAdmitted(n - 1, limit, window);
      BurstStep(AdmitAll(Burst(n - 1, limit, window)), Request(0, n - 1, limit, window));
    }
  }

  lemma BurstScores(n: nat, limit: int, window: nat)
    requires n <= limit && window >= 1
    ensures var h := ServeAll(Burst(n, limit, window));
            && NoneAfter(Scores(h.entries), 0) && |h.log| == n
            && forall i :: 0 <= i < n ==> h.log[i] == Admission(0, limit)
  {
    BurstAdmitted(n, limit, window);
    ServeRefines(Burst(n, limit, window), window);
  }

  lemma {:induction false} InWindowEvery(log: seq<Admission>, n: nat, lo: int, hi: int, l: int)
    requires n <= |log| && forall i :: 0 <= i < n ==> lo < log[i].time <= hi && log[i].limit <= l
    ensures InWindowTo(log, n, lo, hi, l) == n
  {
    if n > 0 {
      InWindowEvery(log, n - 1, lo, hi, l);
    }
  }

  /** A request under a short window forgets what is older than it. */
  lemma Forgets(h: History, q: Request)
    requires NoneAfter(Scores(h.entries), q.now - q.window * 1000) && q.limit >= 1
    ensures Scores(Serve(h, q).entries) == [q.now] && Serve(h, q).log == h.log + [Admission(q.now, q.limit)]
  {
    RecentNone(Scores(h.entries), |h.entries|, q.now - q.window * 1000);
    CheckScores(h.entries, q.now, q.member, q.limit, q.window);
  }

  lemma SeesOne(h: History, q: Request)
    requires Scores(h.entries) == [q.now] && q.limit >= 2 && q.window >= 1
    ensures Serve(h, q).log == h.log + [Admission(q.now, q.limit)]
  {
    RecentEvery([q.now], q.now - q.window * 1000);
    CheckScores(h.entries, q.now, q.member, q.limit, q.window);
  }

  /** Whenever a shorter window shares the key of a longer one, its prune forgets admissions the longer
      one must count: `limit` requests, one request under the short window, and one more exceed `limit`
      within the long window. */
  lemma MixedWindowsOverAdmit(limit: nat, window: nat, limit': nat, window': nat)
    requires limit >= 2 && limit' >= 1 && 1 <= window' < window
    ensures var now := window' * 1000;
            var qs := Mixed(limit, window, limit', window');
            Clock(qs) && InWindow(ServeAll(qs).log, now - window * 1000, now, limit) > limit
  {
    var now := window' * 1000;
    var burst := Burst(limit, limit, window);
    var q1, q2 := Request(now, limit, limit', window'), Request(now, limit + 1, limit, window);
    BurstAdmitted(limit, limit, window);
    var h := ServeAll(burst);
    BurstScores(limit, limit, window);
    Forgets(h, q1);
    SeesOne(Serve(h, q1), q2);
    OneMoreThan(h.log, Admission(now, limit'), Admission(now, limit), now - window * 1000, now, limit);
  }

  function Mixed(limit: nat, window: nat, limit': nat, window': nat): Trace {
    var now := window' * 1000;
    Then(Then(Burst(limit, limit, window), Request(now, limit, limit', window')),
         Request(now, limit + 1, limit, window))
  }

  /** With limits of one the second request is enough. */
  lemma MixedOnes(window: nat, window': nat)
    requires 1 <= window' < window
    ensures var now := window' * 1000;
            var qs := Then(Burst(1, 1, window), Request(now, 1, 1, window'));
            Clock(qs) && InWindow(ServeAll(qs).log, now - window * 1000, now, 1) > 1
  {
    var now := window' * 1000;
    BurstAdmitted(1, 1, window);
    BurstScores(1, 1, window);
    var h := ServeAll(Burst(1, 1, window));
    Forgets(h, Request(now, 1, 1, window'));
    InWindowEvery(h.log, |h.log|, now - window * 1000, now, 1);
    InWindowSnoc(h.log, Admission(now, 1), now - window * 1000, now, 1);
  }

  lemma OneMoreThan(log: seq<Admission>, a: Admission, b: Admission, lo: int, hi: int, l: int)
    requires forall i :: 0 <= i < |log| ==> lo < log[i].time <= hi && log[i].limit <= l
    requires lo < b.time <= hi && b.limit <= l
    ensures InWindow(log + [a] + [b], lo, hi, l) > |log|
  {
    InWindowEvery(log, |log|, lo, hi, l);
    InWindowSnoc(log, a, lo, hi, l);
    InWindowSnoc(log + [a], b, lo, hi, l);
  }
}
