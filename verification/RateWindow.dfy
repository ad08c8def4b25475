/**
The limiter without the sorted set: only the admission times it has not yet pruned, and a log
that remembers every admission. The bounds are proved here.
*/
module RateWindow {
  import opened RateLimiter
  import opened Arithmetic

  datatype Request = Request(now: int, member: Member, limit: int, window: nat)

  function Cutoff(q: Request): int {
    q.now - q.window * 1000
  }

  datatype Admission = Admission(time: int, limit: int)

  /** The requests on one key, the latest last. */
  datatype Trace = Start | Then(before: Trace, q: Request)

  predicate Clock(qs: Trace) {
    qs.Then? ==> Clock(qs.before) && Follows(qs.before, qs.q.now)
  }

  /** The latest request is not later than `now`. */
  predicate Follows(qs: Trace, now: int) {
    qs.Then? ==> qs.q.now <= now
  }

  /** No request on the key has a shorter window. */
  predicate WindowsFrom(qs: Trace, window: nat) {
    window >= 1 && (qs.Then? ==> qs.q.window >= window && WindowsFrom(qs.before, window))
  }

  predicate OneLimit(qs: Trace, limit: int) {
    qs.Then? ==> qs.q.limit == limit && OneLimit(qs.before, limit)
  }

  // ---- Times ----

  function Times(log: seq<Admission>): seq<int> {
    seq(|log|, i requires 0 <= i < |log| => log[i].time)
  }

  function RecentTo(times: seq<int>, n: nat, cutoff: int): seq<int>
    requires n <= |times|
  {
    if n == 0 then []
    else
      var before := RecentTo(times, n - 1, cutoff);
      if times[n - 1] > cutoff then before + [times[n - 1]] else before
  }

  /** The times later than `cutoff`, in order. */
  function Recent(times: seq<int>, cutoff: int): seq<int> {
    RecentTo(times, |times|, cutoff)
  }

  function InWindowTo(log: seq<Admission>, n: nat, lo: int, hi: int, l: int): nat
    requires n <= |log|
  {
    if n == 0 then 0
    else InWindowTo(log, n - 1, lo, hi, l)
         + (if lo < log[n - 1].time <= hi && log[n - 1].limit <= l then 1 else 0)
  }

  /** How many admissions lie in `(lo, hi]` that were made under a limit of at most `l`. */
  function InWindow(log: seq<Admission>, lo: int, hi: int, l: int): nat {
    InWindowTo(log, |log|, lo, hi, l)
  }

  predicate NoneAfter(times: seq<int>, t: int) {
    forall i :: 0 <= i < |times| ==> times[i] <= t
  }

  predicate Ordered(times: seq<int>) {
    forall i, j :: 0 <= i < j < |times| ==> times[i] <= times[j]
  }

  lemma TimesSnoc(log: seq<Admission>, a: Admission)
    ensures Times(log + [a]) == Times(log) + [a.time]
  {
  }

  lemma {:induction false} RecentPrefix(a: seq<int>, b: seq<int>, n: nat, cutoff: int)
    requires n <= |a| && n <= |b| && forall i :: 0 <= i < n ==> a[i] == b[i]
    ensures RecentTo(a, n, cutoff) == RecentTo(b, n, cutoff)
  {
    if n > 0 {
      RecentPrefix(a, b, n - 1, cutoff);
    }
  }

  lemma RecentSnoc(times: seq<int>, x: int, cutoff: int)
    ensures Recent(times + [x], cutoff)
         == if x > cutoff then Recent(times, cutoff) + [x] else Recent(times, cutoff)
  {
    RecentPrefix(times, times + [x], |times|, cutoff);
  }

  lemma {:induction false} InWindowPrefix(a: seq<Admission>, b: seq<Admission>, n: nat, lo: int, hi: int, l: int)
    requires n <= |a| && n <= |b| && forall i :: 0 <= i < n ==> a[i] == b[i]
    ensures InWindowTo(a, n, lo, hi, l) == InWindowTo(b, n, lo, hi, l)
  {
    if n > 0 {
      InWindowPrefix(a, b, n - 1, lo, hi, l);
    }
  }

  lemma InWindowSnoc(log: seq<Admission>, a: Admission, lo: int, hi: int, l: int)
    ensures InWindow(log + [a], lo, hi, l)
         == InWindow(log, lo, hi, l) + (if lo < a.time <= hi && a.limit <= l then 1 else 0)
  {
    InWindowPrefix(log, log + [a], |log|, lo, hi, l);
  }

  lemma {:induction false} RecentRecent(times: seq<int>, n: nat, c1: int, c2: int)
    requires c1 <= c2 && n <= |times|
    ensures Recent(RecentTo(times, n, c1), c2) == RecentTo(times, n, c2)
  {
    if n > 0 {
      RecentRecent(times, n - 1, c1, c2);
      RecentSnoc(RecentTo(times, n - 1, c1), times[n - 1], c2);
    }
  }

  lemma {:induction false} RecentIn(times: seq<int>, n: nat, cutoff: int)
    requires n <= |times|
    ensures forall i :: 0 <= i < |RecentTo(times, n, cutoff)| ==> RecentTo(times, n, cutoff)[i] > cutoff
  {
    if n > 0 {
      RecentIn(times, n - 1, cutoff);
    }
  }

  lemma {:induction false} RecentNoneAfter(times: seq<int>, n: nat, cutoff: int, t: int)
    requires n <= |times| && forall i :: 0 <= i < n ==> times[i] <= t
    ensures NoneAfter(RecentTo(times, n, cutoff), t)
  {
    if n > 0 {
      RecentNoneAfter(times, n - 1, cutoff, t);
    }
  }

  lemma {:induction false} RecentAll(times: seq<int>, n: nat, cutoff: int)
    requires n <= |times| && forall i :: 0 <= i < n ==> times[i] > cutoff
    ensures |RecentTo(times, n, cutoff)| == n
    ensures forall i :: 0 <= i < n ==> RecentTo(times, n, cutoff)[i] == times[i]
  {
    if n > 0 {
      RecentAll(times, n - 1, cutoff);
    }
  }

  lemma RecentEvery(times: seq<int>, cutoff: int)
    requires forall i :: 0 <= i < |times| ==> times[i] > cutoff
    ensures Recent(times, cutoff) == times
  {
    RecentAll(times, |times|, cutoff);
  }

  lemma {:induction false} RecentNone(times: seq<int>, n: nat, cutoff: int)
    requires n <= |times| && forall i :: 0 <= i < n ==> times[i] <= cutoff
    ensures RecentTo(times, n, cutoff) == []
  {
    if n > 0 {
      RecentNone(times, n - 1, cutoff);
    }
  }

  lemma {:induction false} RecentBound(times: seq<int>, n: nat, c1: int, c2: int)
    requires c1 <= c2 && n <= |times|
    ensures |RecentTo(times, n, c2)| <= |RecentTo(times, n, c1)|
  {
    if n > 0 {
      RecentBound(times, n - 1, c1, c2);
    }
  }

  lemma {:induction false} InWindowRecent(log: seq<Admission>, n: nat, lo: int, hi: int, l: int)
    requires n <= |log|
    ensures InWindowTo(log, n, lo, hi, l) <= |RecentTo(Times(log), n, lo)|
  {
    if n > 0 {
      InWindowRecent(log, n - 1, lo, hi, l);
    }
  }

  lemma {:induction false} InWindowAll(log: seq<Admission>, n: nat, lo: int, hi: int, l: int)
    requires n <= |log| && forall i :: 0 <= i < n ==> log[i].limit <= l && log[i].time <= hi
    ensures InWindowTo(log, n, lo, hi, l) == |RecentTo(Times(log), n, lo)|
  {
    if n > 0 {
      InWindowAll(log, n - 1, lo, hi, l);
    }
  }

  /** Ordered times: a later cutoff drops something iff it drops the oldest. */
  lemma {:induction false} CutoffDrops(times: seq<int>, n: nat, c1: int, c2: int)
    requires Ordered(times) && c1 <= c2 && n <= |times| && RecentTo(times, n, c1) != []
    ensures |RecentTo(times, n, c2)| < |RecentTo(times, n, c1)| <==> RecentTo(times, n, c1)[0] <= c2
  {
    RecentBound(times, n - 1, c1, c2);
    if RecentTo(times, n - 1, c1) != [] {
      CutoffDrops(times, n - 1, c1, c2);
      RecentNoneAfter(times, n - 1, c1, times[n - 1]);
      assert RecentTo(times, n - 1, c1)[0] <= times[n - 1];
    } else {
      assert RecentTo(times, n - 1, c2) == [];
    }
  }

  // ---- The abstract limiter ----

  datatype Window = Window(scores: seq<int>, log: seq<Admission>)

  function Admit(w: Window, q: Request): Window {
    var scores := Recent(w.scores, Cutoff(q));
    if |scores| < q.limit then Window(scores + [q.now], w.log + [Admission(q.now, q.limit)])
    else Window(scores, w.log)
  }

  function AdmitAll(qs: Trace): Window {
    match qs
    case Start => Window([], [])
    case Then(before, q) => Admit(AdmitAll(before), q)
  }

  /** A prune at `cutoff` leaves what the whole log says. */
  predicate Agrees(w: Window, cutoff: int) {
    Recent(w.scores, cutoff) == Recent(Times(w.log), cutoff)
  }

  /** After a request the scores are the admission times its prune would keep. */
  lemma AdmitKeeps(w: Window, q: Request)
    requires Agrees(w, Cutoff(q)) && Cutoff(q) < q.now
    ensures Admit(w, q).scores == Recent(Times(Admit(w, q).log), Cutoff(q))
  {
    TimesSnoc(w.log, Admission(q.now, q.limit));
    RecentSnoc(Times(w.log), q.now, Cutoff(q));
  }

  /** A request prunes nothing later than its own cutoff. */
  lemma AdmitAgrees(w: Window, q: Request, cutoff: int)
    requires Agrees(w, cutoff) && Cutoff(q) <= cutoff
    ensures Agrees(Admit(w, q), cutoff)
  {
    var scores := Recent(w.scores, Cutoff(q));
    RecentRecent(w.scores, |w.scores|, Cutoff(q), cutoff);
    RecentSnoc(scores, q.now, cutoff);
    RecentSnoc(Times(w.log), q.now, cutoff);
    TimesSnoc(w.log, Admission(q.now, q.limit));
  }

  /** At any later moment, what a prune would leave is what the log says, if no request had a
      shorter window and pruned more. */
  lemma {:induction false} TracksAt(qs: Trace, window: nat, now: int)
    requires Clock(qs) && WindowsFrom(qs, window) && Follows(qs, now)
    ensures Agrees(AdmitAll(qs), now - window * 1000)
  {
    AgreesFrom(qs, window, now - window * 1000);
  }

  lemma {:induction false} AgreesFrom(qs: Trace, window: nat, cutoff: int)
    requires Clock(qs) && WindowsFrom(qs, window) && Follows(qs, cutoff + window * 1000)
    ensures Agrees(AdmitAll(qs), cutoff)
  {
    if qs.Then? {
      AgreesFrom(qs.before, window, cutoff);
      AdmitAgrees(AdmitAll(qs.before), qs.q, cutoff);
    }
  }

  lemma LastKept(qs: Trace)
    requires Clock(qs) && qs.Then? && WindowsFrom(qs.before, qs.q.window)
    ensures AdmitAll(qs).scores == Recent(Times(AdmitAll(qs).log), Cutoff(qs.q))
  {
    TracksAt(qs.before, qs.q.window, qs.q.now);
    AdmitKeeps(AdmitAll(qs.before), qs.q);
  }

  predicate TimesOk(times: seq<int>, last: int) {
    NoneAfter(times, last) && Ordered(times)
  }

  lemma TimesOkSnoc(times: seq<int>, last: int, now: int)
    requires TimesOk(times, last) && last <= now
    ensures TimesOk(times, now) && TimesOk(times + [now], now)
  {
  }

  lemma AdmitLogOk(w: Window, q: Request, last: int)
    requires TimesOk(Times(w.log), q.now) && q.now <= last
    ensures TimesOk(Times(Admit(w, q).log), last)
  {
    TimesSnoc(w.log, Admission(q.now, q.limit));
    TimesOkSnoc(Times(w.log), q.now, q.now);
    TimesOkLater(Times(Admit(w, q).log), q.now, last);
  }

  lemma {:induction false} LogOk(qs: Trace, last: int)
    requires Clock(qs) && Follows(qs, last)
    ensures TimesOk(Times(AdmitAll(qs).log), last)
  {
    if qs.Then? {
      LogOk(qs.before, qs.q.now);
      AdmitLogOk(AdmitAll(qs.before), qs.q, last);
    }
  }

  lemma TimesOkLater(times: seq<int>, last: int, now: int)
    requires TimesOk(times, last) && last <= now
    ensures TimesOk(times, now)
  {
  }

  lemma NoneAfterSnoc(times: seq<int>, x: int, t: int)
    requires NoneAfter(times, t) && x <= t
    ensures NoneAfter(times + [x], t)
  {
  }

  lemma AdmitNoneAfter(w: Window, q: Request, now: int)
    requires NoneAfter(w.scores, q.now) && q.now <= now
    ensures NoneAfter(Admit(w, q).scores, now)
  {
    RecentNoneAfter(w.scores, |w.scores|, Cutoff(q), now);
    NoneAfterSnoc(Recent(w.scores, Cutoff(q)), q.now, now);
  }

  lemma {:induction false} ScoresNoneAfter(qs: Trace, now: int)
    requires Clock(qs) && Follows(qs, now)
    ensures NoneAfter(AdmitAll(qs).scores, now)
  {
    if qs.Then? {
      ScoresNoneAfter(qs.before, qs.q.now);
      AdmitNoneAfter(AdmitAll(qs.before), qs.q, now);
    }
  }

  lemma BoundStep(w: Window, q: Request, lo: int, t: int, l: int)
    requires q.now <= t ==> Agrees(w, lo) && Cutoff(q) <= lo
    requires InWindow(w.log, lo, t, l) <= Max(l, 0)
    ensures InWindow(Admit(w, q).log, lo, t, l) <= Max(l, 0)
  {
    InWindowSnoc(w.log, Admission(q.now, q.limit), lo, t, l);
    if q.now <= t {
      InWindowRecent(w.log, |w.log|, lo, t, l);
      RecentBound(w.scores, |w.scores|, Cutoff(q), lo);
    }
  }

  lemma {:induction false} AdmitBound(qs: Trace, window: nat, t: int, l: int)
    requires Clock(qs) && WindowsFrom(qs, window)
    ensures InWindow(AdmitAll(qs).log, t - window * 1000, t, l) <= Max(l, 0)
  {
    if qs.Then? {
      AdmitBound(qs.before, window, t, l);
      if qs.q.now <= t {
        TracksAt(qs.before, window, t);
      }
      BoundStep(AdmitAll(qs.before), qs.q, t - window * 1000, t, l);
    }
  }

  lemma {:induction false} LogLimits(qs: Trace, limit: int)
    requires OneLimit(qs, limit)
    ensures forall i :: 0 <= i < |AdmitAll(qs).log| ==> AdmitAll(qs).log[i].limit == limit
  {
    if qs.Then? {
      LogLimits(qs.before, limit);
    }
  }

  lemma FullWindow(qs: Trace, window: nat, limit: int, now: int)
    requires Clock(qs) && WindowsFrom(qs, window) && Follows(qs, now) && OneLimit(qs, limit) && limit >= 0
    ensures |Recent(Times(AdmitAll(qs).log), now - window * 1000)| <= limit
  {
    var log := AdmitAll(qs).log;
    LogOk(qs, now);
    LogLimits(qs, limit);
    assert forall i :: 0 <= i < |log| ==> log[i].time == Times(log)[i];
    InWindowAll(log, |log|, now - window * 1000, now, limit);
    AdmitBound(qs, window, now, limit);
  }
}
