/**
The limiter with the time to live of its key, which each request renews to one second more than its own
window. On a key that routes with several windows share it may remove entries that still count.
*/
module RateLimiterTtl {
  import opened Wrappers
  import opened RateLimiter
  import opened RateWindow
  import opened Arithmetic
  import opened RateLimiterHistory

  datatype TtlHistory = TtlHistory(h: History, expireAt: Option<int>)

  function ServeTtl(x: TtlHistory, q: Request): TtlHistory {
    TtlHistory(Record(x.h, q, Check(Visible(x.h.entries, x.expireAt, q.now), q.now, q.member, q.limit, q.window)),
               Some(q.now + (q.window + 1) * 1000))
  }

  function ServeAllTtl(qs: Trace): TtlHistory {
    match qs
    case Start => TtlHistory(History([], [], []), None)
    case Then(before, q) => ServeTtl(ServeAllTtl(before), q)
  }

  lemma PruneNone(z: seq<Entry>, cutoff: int)
    ensures Prune(z, cutoff) == [] <==> NoneAfter(Scores(z), cutoff)
  {
    PruneScores(z, |z|, cutoff);
    assert |Scores(Prune(z, cutoff))| == |Prune(z, cutoff)|;
    if NoneAfter(Scores(z), cutoff) {
      RecentNone(Scores(z), |z|, cutoff);
    } else {
      var i :| 0 <= i < |Scores(z)| && Scores(z)[i] > cutoff;
      RecentSome(Scores(z), |z|, cutoff, i);
    }
  }

  lemma {:induction false} RecentSome(times: seq<int>, n: nat, cutoff: int, i: nat)
    requires i < n <= |times| && times[i] > cutoff
    ensures RecentTo(times, n, cutoff) != []
  {
    if i < n - 1 {
      RecentSome(times, n - 1, cutoff, i);
    }
  }

  predicate Expired(expireAt: Option<int>, now: int) {
    expireAt.Some? && expireAt.value <= now
  }

  /** Exactly when an expiry makes no difference to a request: iff the key has not expired, or holds no
      score later than the request's cutoff. */
  lemma ExpiryInvisibleIff(z: seq<Entry>, expireAt: Option<int>, q: Request)
    ensures Check(Visible(z, expireAt, q.now), q.now, q.member, q.limit, q.window)
         == Check(z, q.now, q.member, q.limit, q.window)
       <==> !Expired(expireAt, q.now) || NoneAfter(Scores(z), Cutoff(q))
  {
    PruneNone(z, Cutoff(q));
    CheckSize(z, q);
    CheckSize([], q);
  }

  /** And to its decision: also if fewer than the limit of them are later. */
  lemma ExpiryDecidesIff(z: seq<Entry>, expireAt: Option<int>, q: Request)
    requires q.limit >= 1
    ensures Check(Visible(z, expireAt, q.now), q.now, q.member, q.limit, q.window).decision.Allowed?
         != Check(z, q.now, q.member, q.limit, q.window).decision.Allowed?
       <==> Expired(expireAt, q.now) && |Recent(Scores(z), Cutoff(q))| >= q.limit
  {
    PruneScores(z, |z|, Cutoff(q));
    assert |Scores(Prune(z, Cutoff(q)))| == |Prune(z, Cutoff(q))|;
    CheckSize(z, q);
    CheckSize([], q);
  }

  /** When the time to live of the latest request ends. */
  function ExpiryOf(qs: Trace): Option<int> {
    if qs.Start? then None else Some(qs.q.now + (qs.q.window + 1) * 1000)
  }

  lemma TtlExpiry(qs: Trace)
    ensures ServeAllTtl(qs).expireAt == ExpiryOf(qs)
  {
  }

  /** Up to now, with the time to live and without it, every decision, hint and admission was the same. */
  predicate SameAlong(qs: Trace) {
    ServeAllTtl(qs).h == ServeAll(qs) && (qs.Then? ==> SameAlong(qs.before))
  }

  /** No request found the key expired that still held a score in its window. */
  predicate NeverForgets(qs: Trace) {
    qs.Then? ==>
      && NeverForgets(qs.before)
      && (!Expired(ExpiryOf(qs.before), qs.q.now) || NoneAfter(Scores(ServeAll(qs.before).entries), Cutoff(qs.q)))
  }

  /** Exactly when the time to live changes nothing, over a whole history. */
  lemma {:induction false} TtlInvisibleIff(qs: Trace)
    ensures SameAlong(qs) <==> NeverForgets(qs)
  {
    if qs.Then? {
      TtlInvisibleIff(qs.before);
      TtlExpiry(qs.before);
      if ServeAllTtl(qs.before).h == ServeAll(qs.before) {
        ExpiryInvisibleIff(ServeAll(qs.before).entries, ExpiryOf(qs.before), qs.q);
        RecordInjective(ServeAll(qs.before), qs.q);
      }
    }
  }

  lemma RecordInjective(h: History, q: Request)
    ensures forall o, o' :: Record(h, q, o) == Record(h, q, o') ==> o == o'
  {
    forall o, o' | Record(h, q, o) == Record(h, q, o')
      ensures o == o'
    {
      assert (h.decisions + [o.decision])[|h.decisions|] == (h.decisions + [o'.decision])[|h.decisions|];
    }
  }

  /** No request has a longer window than the one before it. */
  predicate NeverLonger(qs: Trace) {
    qs.Then? ==> NeverLonger(qs.before) && (qs.before.Then? ==> qs.q.window <= qs.before.q.window)
  }

  /** Then, and so on a key with one window, the time to live changes nothing: whatever it removes the
      next prune would remove. */
  lemma {:induction false} TtlInvisible(qs: Trace)
    requires Clock(qs) && WindowsFrom(qs, 1) && NeverLonger(qs)
    ensures SameAlong(qs)
  {
    NeverLongerForgets(qs);
    TtlInvisibleIff(qs);
  }

  lemma {:induction false} NeverLongerForgets(qs: Trace)
    requires Clock(qs) && WindowsFrom(qs, 1) && NeverLonger(qs)
    ensures NeverForgets(qs)
  {
    if qs.Then? {
      NeverLongerForgets(qs.before);
      if qs.before.Then? {
        ServeRefines(qs.before, 1);
        ScoresNoneAfter(qs.before, qs.before.q.now);
      }
    }
  }

  function Registration(now: int, member: Member): Request {
    Request(now, member, 1, 3600)
  }

  function TwoRoutes(): Trace {
    Then(Then(Start, Registration(0, 0)), Request(1000, 1, 10, 60))
  }

  lemma TwoRoutesScores()
    ensures Scores(ServeAll(TwoRoutes()).entries) == [0, 1000]
  {
    var one := Then(Start, Registration(0, 0));
    ServeRefines(TwoRoutes(), 60);
    assert Clock(one) && WindowsFrom(one, 60);
    assert AdmitAll(Start) == Window([], []);
    assert AdmitAll(one).scores == [] + [0] == [0];
    RecentEvery([0], 1000 - 60000);
    assert AdmitAll(TwoRoutes()).scores == [0] + [1000];
  }

  /** On a key with two windows it may: a registration, one second later a login, whose time to live is
      61 seconds, and another registration after that. The second one is within the hour and over its
      limit, but the key is gone. */
  lemma ExpiryForgets()
    ensures Answer(TwoRoutes(), 63000, 2, 1, 3600).Denied?
    ensures Check(Visible(ServeAllTtl(TwoRoutes()).h.entries, ServeAllTtl(TwoRoutes()).expireAt, 63000), 63000, 2, 1,
                  3600).decision == Allowed
  {
    var q := Registration(63000, 2);
    var z := ServeAll(TwoRoutes()).entries;
    TwoRoutesScores();
    RecentEvery([0, 1000], Cutoff(q));
    assert NeverForgets(TwoRoutes());
    TtlInvisibleIff(TwoRoutes());
    TtlExpiry(TwoRoutes());
    ExpiryDecidesIff(z, ExpiryOf(TwoRoutes()), q);
    PruneScores(z, |z|, Cutoff(q));
    assert |Scores(Prune(z, Cutoff(q)))| == |Prune(z, Cutoff(q))|;
    CheckSize(z, q);
  }

  // ---- The bound, with the time to live ----

  function WindowOf(x: TtlHistory): Window {
    Window(Scores(x.h.entries), x.h.log)
  }

  /** What the request finds. */
  function SeenBy(x: TtlHistory, q: Request): Window {
    Window(Scores(Visible(x.h.entries, x.expireAt, q.now)), x.h.log)
  }

  lemma TtlStep(x: TtlHistory, q: Request)
    requires NoneAfter(SeenBy(x, q).scores, q.now)
    ensures WindowOf(ServeTtl(x, q)) == Admit(SeenBy(x, q), q)
  {
    var z := Visible(x.h.entries, x.expireAt, q.now);
    RecentNoneAfter(Scores(z), |Scores(z)|, Cutoff(q), q.now);
    CheckScores(z, q.now, q.member, q.limit, q.window);
  }

  lemma SeenNoneAfter(x: TtlHistory, q: Request, t: int)
    requires NoneAfter(Scores(x.h.entries), t)
    ensures NoneAfter(SeenBy(x, q).scores, t)
  {
  }

  lemma {:induction false} TtlNoneAfter(qs: Trace, now: int)
    requires Clock(qs) && Follows(qs, now)
    ensures NoneAfter(Scores(ServeAllTtl(qs).h.entries), now)
  {
    if qs.Then? {
      var x := ServeAllTtl(qs.before);
      TtlNoneAfter(qs.before, qs.q.now);
      SeenNoneAfter(x, qs.q, qs.q.now);
      TtlStep(x, qs.q);
      AdmitNoneAfter(SeenBy(x, qs.q), qs.q, now);
    }
  }

  /** One more request of a history, seen as the limiter with times only. */
  lemma TtlLast(qs: Trace)
    requires Clock(qs) && qs.Then?
    ensures WindowOf(ServeAllTtl(qs)) == Admit(SeenBy(ServeAllTtl(qs.before), qs.q), qs.q)
    ensures NoneAfter(SeenBy(ServeAllTtl(qs.before), qs.q).scores, qs.q.now)
  {
    TtlNoneAfter(qs.before, qs.q.now);
    SeenNoneAfter(ServeAllTtl(qs.before), qs.q, qs.q.now);
    TtlStep(ServeAllTtl(qs.before), qs.q);
  }

  lemma {:induction false} TtlLogOk(qs: Trace, last: int)
    requires Clock(qs) && Follows(qs, last)
    ensures TimesOk(Times(ServeAllTtl(qs).h.log), last)
  {
    if qs.Then? {
      TtlLogOk(qs.before, qs.q.now);
      TtlLast(qs);
      AdmitLogOk(SeenBy(ServeAllTtl(qs.before), qs.q), qs.q, last);
    }
  }

  /** An expired key was last used more than the shortest window ago: nothing it held counts for that window. */
  lemma SeenAgrees(qs: Trace, q: Request, window: nat, cutoff: int)
    requires Clock(qs) && WindowsFrom(qs, window) && q.now <= cutoff + window * 1000
    requires Agrees(WindowOf(ServeAllTtl(qs)), cutoff)
    ensures Agrees(SeenBy(ServeAllTtl(qs), q), cutoff)
  {
    TtlExpiry(qs);
    if Expired(ExpiryOf(qs), q.now) {
      TtlNoneAfter(qs, qs.q.now);
      var scores := Scores(ServeAllTtl(qs).h.entries);
      RecentNone(scores, |scores|, cutoff);
      var none: seq<int> := [];
      assert Recent(none, cutoff) == [];
    }
  }

  lemma {:induction false} TtlAgrees(qs: Trace, window: nat, cutoff: int)
    requires Clock(qs) && WindowsFrom(qs, window) && Follows(qs, cutoff + window * 1000)
    ensures Agrees(WindowOf(ServeAllTtl(qs)), cutoff)
  {
    if qs.Then? {
      TtlAgrees(qs.before, window, cutoff);
      SeenAgrees(qs.before, qs.q, window, cutoff);
      TtlLast(qs);
      AdmitAgrees(SeenBy(ServeAllTtl(qs.before), qs.q), qs.q, cutoff);
    }
  }

  /** The limiter as it runs, with its time to live, on a key that several routes share: a request whose window
      is not longer than the others' is admitted iff fewer than its limit admissions of the whole log lie in
      `(now - window, now]`. */
  lemma TtlAdmittedIff(qs: Trace, q: Request)
    requires Clock(Then(qs, q)) && WindowsFrom(qs, q.window)
    ensures var x := ServeAllTtl(qs);
            Check(Visible(x.h.entries, x.expireAt, q.now), q.now, q.member, q.limit, q.window).decision.Allowed?
            <==> |Recent(Times(x.h.log), Cutoff(q))| < q.limit
  {
    var x := ServeAllTtl(qs);
    var z := Visible(x.h.entries, x.expireAt, q.now);
    TtlAgrees(qs, q.window, Cutoff(q));
    SeenAgrees(qs, q, q.window, Cutoff(q));
    TtlLast(Then(qs, q));
    RecentNoneAfter(Scores(z), |Scores(z)|, Cutoff(q), q.now);
    CheckScores(z, q.now, q.member, q.limit, q.window);
  }

  /** The window bound as the limiter runs: with `window` at most every window used on the key, every interval
      `(t - window, t]` holds at most `l` admissions made under limits of at most `l`. */
  lemma {:induction false} TtlWindowBound(qs: Trace, window: nat, t: int, l: int)
    requires Clock(qs) && WindowsFrom(qs, window)
    ensures InWindow(ServeAllTtl(qs).h.log, t - window * 1000, t, l) <= Max(l, 0)
  {
    if qs.Then? {
      TtlWindowBound(qs.before, window, t, l);
      if qs.q.now <= t {
        TtlAgrees(qs.before, window, t - window * 1000);
        SeenAgrees(qs.before, qs.q, window, t - window * 1000);
      }
      TtlLast(qs);
      BoundStep(SeenBy(ServeAllTtl(qs.before), qs.q), qs.q, t - window * 1000, t, l);
    }
  }

  // ---- Exactly when a route's bound holds ----

  /** A limit and a window that requests on the key are checked with. */
  datatype Route = Route(limit: nat, window: nat)

  predicate Uses(qs: Trace, routes: set<Route>) {
    qs.Then? ==>
      Uses(qs.before, routes) && qs.q.limit >= 0 && Route(qs.q.limit, qs.q.window) in routes
  }

  predicate KeepsBound(qs: Trace, r: Route, t: int) {
    InWindow(ServeAllTtl(qs).h.log, t - r.window * 1000, t, r.limit) <= r.limit
  }

  ghost predicate BoundHolds(routes: set<Route>, r: Route) {
    forall qs, t :: Clock(qs) && Uses(qs, routes) ==> KeepsBound(qs, r, t)
  }

  /** No other route has a shorter window. A limit of one tolerates those with larger limits whose time to
      live, one second more than their window, is long enough. */
  ghost predicate Compatible(routes: set<Route>, r: Route) {
    forall x :: x in routes ==> x.window >= r.window || (r.limit == 1 && x.limit > 1 && x.window + 1 >= r.window)
  }

  lemma {:induction false} BurstUses(n: nat, r: Route, routes: set<Route>)
    requires r in routes
    ensures Uses(Burst(n, r.limit, r.window), routes)
  {
    if n > 0 {
      BurstUses(n - 1, r, routes);
    }
  }

  /** Between the requests of a burst, and at the requests that follow it, the key does not expire. */
  lemma {:induction false} BurstNeverForgets(n: nat, limit: int, window: nat)
    ensures NeverForgets(Burst(n, limit, window))
  {
    if n > 0 {
      BurstNeverForgets(n - 1, limit, window);
    }
  }

  lemma MixedNeverForgets(limit: nat, window: nat, limit': nat, window': nat)
    requires limit >= 1 && window' < window
    ensures NeverForgets(Mixed(limit, window, limit', window'))
  {
    BurstNeverForgets(limit, limit, window);
    var qs := Mixed(limit, window, limit', window');
    assert NeverForgets(qs.before.before);
    assert NeverForgets(qs.before);
  }

  lemma MixedBreaks(routes: set<Route>, r: Route, x: Route)
    requires r in routes && x in routes && r.limit >= 2 && x.limit >= 1 && 1 <= x.window < r.window
    ensures !BoundHolds(routes, r)
  {
    var now := x.window * 1000;
    var qs := Mixed(r.limit, r.window, x.limit, x.window);
    BurstUses(r.limit, r, routes);
    MixedWindowsOverAdmit(r.limit, r.window, x.limit, x.window);
    MixedNeverForgets(r.limit, r.window, x.limit, x.window);
    TtlInvisibleIff(qs);
    assert Uses(qs.before, routes);
    assert Uses(qs, routes) && !KeepsBound(qs, r, now);
  }

  lemma OnesBreak(routes: set<Route>, r: Route, x: Route)
    requires r in routes && x in routes && r.limit == 1 && x.limit == 1 && 1 <= x.window < r.window
    ensures !BoundHolds(routes, r)
  {
    var now := x.window * 1000;
    var qs := Then(Burst(1, 1, r.window), Request(now, 1, 1, x.window));
    BurstUses(1, r, routes);
    MixedOnes(r.window, x.window);
    BurstNeverForgets(1, 1, r.window);
    assert NeverForgets(qs);
    TtlInvisibleIff(qs);
    assert Uses(qs, routes) && !KeepsBound(qs, r, now);
  }

  /** A request of limit one, one under a larger limit whose time to live is short, and after that another one. */
  function Forgotten(r: Route, x: Route): Trace {
    Then(OneEach(r, x), Request((x.window + 1) * 1000, 2, 1, r.window))
  }

  function OneEach(r: Route, x: Route): Trace {
    Then(Then(Start, Request(0, 0, 1, r.window)), Request(0, 1, x.limit, x.window))
  }

  lemma OneEachLog(r: Route, x: Route)
    requires r.limit == 1 && x.limit >= 2 && x.window >= 1 && r.window >= 1
    ensures ServeAllTtl(OneEach(r, x)).h.log == [Admission(0, 1)] + [Admission(0, x.limit)]
  {
    var one := Then(Start, Request(0, 0, 1, r.window));
    TtlLast(one);
    assert SeenBy(ServeAllTtl(Start), one.q) == Window([], []);
    assert WindowOf(ServeAllTtl(one)) == Window([] + [0], [] + [Admission(0, 1)]);
    TtlExpiry(one);
    TtlLast(OneEach(r, x));
    RecentEvery([0], 0 - x.window * 1000);
  }

  lemma ForgottenBreaks(routes: set<Route>, r: Route, x: Route)
    requires r in routes && x in routes && r.limit == 1 && x.limit >= 2 && 1 <= x.window && x.window + 1 < r.window
    ensures !BoundHolds(routes, r)
  {
    var qs := Forgotten(r, x);
    var now := (x.window + 1) * 1000;
    var lo := now - r.window * 1000;
    OneEachLog(r, x);
    TtlExpiry(OneEach(r, x));
    assert Clock(OneEach(r, x).before) && Clock(OneEach(r, x));
    TtlLast(qs);
    var none: seq<int> := [];
    assert Recent(none, Cutoff(qs.q)) == [];
    var log := [Admission(0, 1)] + [Admission(0, x.limit)];
    assert ServeAllTtl(qs).h.log == log + [Admission(now, 1)];
    InWindowEvery([Admission(0, 1)], 1, lo, now, 1);
    InWindowSnoc([Admission(0, 1)], Admission(0, x.limit), lo, now, 1);
    InWindowSnoc(log, Admission(now, 1), lo, now, 1);
    assert Uses(Start, routes) && Uses(OneEach(r, x).before, routes) && Uses(OneEach(r, x), routes);
    assert Uses(qs, routes) && !KeepsBound(qs, r, now);
  }

  lemma Incompatible(routes: set<Route>, r: Route, x: Route)
    requires r in routes && x in routes && r.limit >= 1 && x.limit >= 1 && 1 <= x.window < r.window
    requires !(r.limit == 1 && x.limit > 1 && x.window + 1 >= r.window)
    ensures !BoundHolds(routes, r)
  {
    if r.limit >= 2 {
      MixedBreaks(routes, r, x);
    } else if x.limit == 1 {
      OnesBreak(routes, r, x);
    } else {
      ForgottenBreaks(routes, r, x);
    }
  }

  lemma {:induction false} UsesFrom(qs: Trace, routes: set<Route>, window: nat)
    requires Uses(qs, routes) && window >= 1 && forall x :: x in routes ==> x.window >= window
    ensures WindowsFrom(qs, window)
  {
    if qs.Then? {
      UsesFrom(qs.before, routes, window);
    }
  }

  // A limit of one, and shorter windows with larger limits.

  predicate LatestKept(w: Window) {
    w.log != [] ==>
      w.scores != [] && w.scores[|w.scores| - 1] == w.log[|w.log| - 1].time
      && NoneAfter(w.scores, w.scores[|w.scores| - 1]) && NoneAfter(Times(w.log), w.log[|w.log| - 1].time)
  }

  lemma {:induction false} RecentLast(times: seq<int>, cutoff: int)
    requires times != [] && times[|times| - 1] > cutoff
    ensures Recent(times, cutoff) != [] && Recent(times, cutoff)[|Recent(times, cutoff)| - 1] == times[|times| - 1]
  {
  }

  lemma AdmitLatest(w: Window, q: Request)
    requires LatestKept(w) && q.limit >= 1 && NoneAfter(Times(w.log), q.now) && NoneAfter(w.scores, q.now)
    ensures LatestKept(Admit(w, q))
  {
    var kept := Recent(w.scores, Cutoff(q));
    RecentNoneAfter(w.scores, |w.scores|, Cutoff(q), q.now);
    TimesSnoc(w.log, Admission(q.now, q.limit));
    if w.log != [] {
      var last := w.scores[|w.scores| - 1];
      if last > Cutoff(q) {
        RecentLast(w.scores, Cutoff(q));
        RecentNoneAfter(w.scores, |w.scores|, Cutoff(q), last);
      } else {
        RecentNone(w.scores, |w.scores|, Cutoff(q));
      }
    }
  }

  predicate LimitsFrom(qs: Trace) {
    qs.Then? ==> LimitsFrom(qs.before) && qs.q.limit >= 1
  }

  lemma EmptyLatest(log: seq<Admission>, q: Request)
    requires q.limit >= 1 && NoneAfter(Times(log), q.now)
    ensures LatestKept(Admit(Window([], log), q))
  {
    TimesSnoc(log, Admission(q.now, q.limit));
    assert Recent([], Cutoff(q)) == [];
  }

  lemma {:induction false} AllLatest(qs: Trace)
    requires Clock(qs) && LimitsFrom(qs)
    ensures LatestKept(WindowOf(ServeAllTtl(qs)))
  {
    if qs.Then? {
      AllLatest(qs.before);
      TtlLogOk(qs.before, qs.q.now);
      TtlLast(qs);
      TtlExpiry(qs.before);
      if Expired(ExpiryOf(qs.before), qs.q.now) {
        EmptyLatest(ServeAllTtl(qs.before).h.log, qs.q);
      } else {
        AdmitLatest(SeenBy(ServeAllTtl(qs.before), qs.q), qs.q);
      }
    }
  }

  /** Requests of limit one have windows of at least `window`, and all others times to live. */
  predicate OnesFrom(qs: Trace, window: nat) {
    qs.Then? ==>
      OnesFrom(qs.before, window) && qs.q.window + 1 >= window && (qs.q.limit <= 1 ==> qs.q.window >= window)
  }

  lemma {:induction false} NoneInWindow(log: seq<Admission>, n: nat, lo: int, hi: int, l: int)
    requires n <= |log| && forall i :: 0 <= i < n ==> log[i].time <= lo
    ensures InWindowTo(log, n, lo, hi, l) == 0
  {
    if n > 0 {
      NoneInWindow(log, n - 1, lo, hi, l);
    }
  }

  lemma OneStep(w: Window, q: Request, lo: int, t: int)
    requires LatestKept(w) && InWindow(w.log, lo, t, 1) <= 1
    requires q.limit <= 1 && q.now <= t ==> Cutoff(q) <= lo
    ensures InWindow(Admit(w, q).log, lo, t, 1) <= 1
  {
    InWindowSnoc(w.log, Admission(q.now, q.limit), lo, t, 1);
    var kept := Recent(w.scores, Cutoff(q));
    if |kept| < q.limit && q.limit <= 1 && q.now <= t && w.log != [] {
      var last := w.scores[|w.scores| - 1];
      if last > Cutoff(q) {
        RecentLast(w.scores, Cutoff(q));
        assert false;
      }
      assert forall i :: 0 <= i < |w.log| ==> w.log[i].time == Times(w.log)[i];
      NoneInWindow(w.log, |w.log|, lo, t, 1);
    }
  }

  /** A request that finds the key expired: every admission has left the window. */
  lemma ExpiredOneStep(qs: Trace, window: nat, t: int)
    requires Clock(qs) && qs.Then? && OnesFrom(qs.before, window) && Expired(ExpiryOf(qs.before), qs.q.now)
    requires var log := ServeAllTtl(qs.before).h.log; InWindow(log, t - window * 1000, t, 1) <= 1
    ensures InWindow(Admit(Window([], ServeAllTtl(qs.before).h.log), qs.q).log, t - window * 1000, t, 1) <= 1
  {
    var log := ServeAllTtl(qs.before).h.log;
    var lo := t - window * 1000;
    InWindowSnoc(log, Admission(qs.q.now, qs.q.limit), lo, t, 1);
    if qs.q.now <= t {
      TtlLogOk(qs.before, qs.before.q.now);
      assert forall i :: 0 <= i < |log| ==> log[i].time == Times(log)[i];
      NoneInWindow(log, |log|, lo, t, 1);
    }
  }

  lemma {:induction false} OnesBound(qs: Trace, window: nat, t: int)
    requires Clock(qs) && LimitsFrom(qs) && OnesFrom(qs, window)
    ensures InWindow(ServeAllTtl(qs).h.log, t - window * 1000, t, 1) <= 1
  {
    if qs.Then? {
      OnesBound(qs.before, window, t);
      TtlLast(qs);
      TtlExpiry(qs.before);
      if Expired(ExpiryOf(qs.before), qs.q.now) {
        ExpiredOneStep(qs, window, t);
      } else {
        AllLatest(qs.before);
        OneStep(SeenBy(ServeAllTtl(qs.before), qs.q), qs.q, t - window * 1000, t);
      }
    }
  }

  lemma {:induction false} UsesOnes(qs: Trace, routes: set<Route>, r: Route)
    requires Uses(qs, routes) && Compatible(routes, r)
    requires forall x :: x in routes ==> x.limit >= 1
    ensures LimitsFrom(qs) && OnesFrom(qs, r.window)
  {
    if qs.Then? {
      UsesOnes(qs.before, routes, r);
      assert Route(qs.q.limit, qs.q.window) in routes;
    }
  }

  lemma CompatibleHolds(routes: set<Route>, r: Route, qs: Trace, t: int)
    requires r in routes && (forall x :: x in routes ==> x.limit >= 1 && x.window >= 1) && Compatible(routes, r)
    requires Clock(qs) && Uses(qs, routes)
    ensures KeepsBound(qs, r, t)
  {
    if r.limit == 1 {
      UsesOnes(qs, routes, r);
      OnesBound(qs, r.window, t);
    } else {
      UsesFrom(qs, routes, r.window);
      TtlWindowBound(qs, r.window, t, r.limit);
    }
  }

  /** Exactly when a route keeps its promise on a key it shares: in every history on the key every
      interval of its window holds at most its limit of admissions under limits up to its own, iff no
      route of the key has a shorter window, except, for a limit of one, those with larger limits and a
      time to live of at least its window. */
  lemma RouteBoundIff(routes: set<Route>, r: Route)
    requires r in routes && forall x :: x in routes ==> x.limit >= 1 && x.window >= 1
    ensures BoundHolds(routes, r) <==> Compatible(routes, r)
  {
    if Compatible(routes, r) {
      forall qs, t | Clock(qs) && Uses(qs, routes)
        ensures KeepsBound(qs, r, t)
      {
        CompatibleHolds(routes, r, qs, t);
      }
    } else {
      var x :| x in routes && x.window < r.window && !(r.limit == 1 && x.limit > 1 && x.window + 1 >= r.window);
      Incompatible(routes, r, x);
    }
  }

  // ---- The key of an address ----

  const LOGIN := Route(10, 60)

  const REGISTER := Route(5, 3600)

  /** The two routes that share the key of an address: the bound of ten logins in a minute holds, that of five
      registrations in an hour does not. */
  lemma AddressKey()
    ensures BoundHolds({LOGIN, REGISTER}, LOGIN)
    ensures !BoundHolds({LOGIN, REGISTER}, REGISTER)
  {
    RouteBoundIff({LOGIN, REGISTER}, LOGIN);
    RouteBoundIff({LOGIN, REGISTER}, REGISTER);
    assert LOGIN in {LOGIN, REGISTER};
  }
}
