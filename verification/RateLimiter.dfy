/**
The sliding-window rate limiter: one Redis sorted set per key, pruned, counted, added to, given
a time to live, and popped again when the request is denied. Times are milliseconds on one clock.
*/
module RateLimiter {
  import opened Wrappers
  import opened Arithmetic

  type Member = nat

  /** A sorted set, in Redis order: by score, then by member. */
  datatype Entry = Entry(score: int, member: Member)

  predicate Less(a: Entry, b: Entry) {
    a.score < b.score || (a.score == b.score && a.member < b.member)
  }

  predicate Sorted(z: seq<Entry>) {
    forall i, j :: 0 <= i < j < |z| ==> Less(z[i], z[j])
  }

  // ---- Redis commands as functions ----

  /** The first `n` entries with a score above `cutoff`. */
  function PruneTo(z: seq<Entry>, n: nat, cutoff: int): seq<Entry>
    requires n <= |z|
  {
    if n == 0 then []
    else
      var before := PruneTo(z, n - 1, cutoff);
      if z[n - 1].score > cutoff then before + [z[n - 1]] else before
  }

  /** ZREMRANGEBYSCORE key -inf cutoff. */
  function Prune(z: seq<Entry>, cutoff: int): seq<Entry> {
    PruneTo(z, |z|, cutoff)
  }

  function Prefix(z: seq<Entry>, n: nat): seq<Entry>
    requires n <= |z|
  {
    seq(n, i requires 0 <= i < n => z[i])
  }

  /** The first `n` entries with `e` put in its place. */
  function InsertTo(z: seq<Entry>, n: nat, e: Entry): seq<Entry>
    requires n <= |z|
  {
    if n == 0 || Less(z[n - 1], e) then Prefix(z, n) + [e]
    else InsertTo(z, n - 1, e) + [z[n - 1]]
  }

  /** ZADD of a new member. */
  function Insert(z: seq<Entry>, e: Entry): seq<Entry> {
    InsertTo(z, |z|, e)
  }

  /** ZPOPMAX: all but the last entry. */
  function PopMax(z: seq<Entry>): seq<Entry> {
    if z == [] then [] else Prefix(z, |z| - 1)
  }

  function Scores(z: seq<Entry>): seq<int> {
    seq(|z|, i requires 0 <= i < |z| => z[i].score)
  }

  lemma {:induction false} PruneIn(z: seq<Entry>, n: nat, cutoff: int)
    requires n <= |z|
    ensures forall e :: e in PruneTo(z, n, cutoff) ==> e in z && e.score > cutoff
  {
    if n > 0 {
      PruneIn(z, n - 1, cutoff);
    }
  }

  /** On a sorted set the prune is the removal of a front part. */
  lemma {:induction false} PruneSuffix(z: seq<Entry>, n: nat, cutoff: int, k: nat)
    requires k <= n <= |z|
    requires forall i :: 0 <= i < k ==> z[i].score <= cutoff
    requires forall i :: k <= i < n ==> z[i].score > cutoff
    ensures PruneTo(z, n, cutoff) == z[k..n]
  {
    if n > 0 {
      if n == k {
        PruneSuffix(z, n - 1, cutoff, k - 1);
      } else {
        PruneSuffix(z, n - 1, cutoff, k);
        assert z[k..n] == z[k..n - 1] + [z[n - 1]];
      }
    }
  }

  lemma {:induction false} InsertAt(z: seq<Entry>, n: nat, e: Entry, k: nat)
    requires k <= n <= |z|
    requires k > 0 ==> Less(z[k - 1], e)
    requires forall i :: k <= i < n ==> !Less(z[i], e)
    ensures InsertTo(z, n, e) == z[..k] + [e] + z[k..n]
  {
    if n == k {
      assert Prefix(z, n) == z[..k] && z[k..n] == [];
    } else {
      InsertAt(z, n - 1, e, k);
      assert z[k..n] == z[k..n - 1] + [z[n - 1]];
    }
  }

  // ---- One request, check and undo in one step ----

  datatype Decision = Allowed | Denied(retryAfter: int)

  /** `int(x / 1000)`: toward zero. */
  function TruncSeconds(ms: int): int {
    if ms >= 0 then ms / 1000 else -((-ms) / 1000)
  }

  /** `max(1, int(...)) if oldest_ms else window_seconds`: a score of 0 is falsy. */
  function RetryAfter(oldest: int, now: int, window: int): int {
    if oldest != 0 then Max(1, TruncSeconds(oldest + window * 1000 - now)) else window
  }

  datatype Outcome = Outcome(entries: seq<Entry>, decision: Decision)

  function Check(z: seq<Entry>, now: int, member: Member, limit: int, window: nat): Outcome {
    var pruned := Prune(z, now - window * 1000);
    var added := Insert(pruned, Entry(now, member));
    if |pruned| >= limit then
      var undone := PopMax(added);
      var oldest := if |pruned| > 0 && |undone| > 0 then undone[0].score else now;
      Outcome(undone, Denied(RetryAfter(oldest, now, window)))
    else
      Outcome(added, Allowed)
  }

  /** The key as Redis shows it at `now`: gone once its time to live is over. */
  function Visible(z: seq<Entry>, expireAt: Option<int>, now: int): seq<Entry> {
    if expireAt.Some? && expireAt.value <= now then [] else z
  }

  // ---- The key, updated in place ----

  class RateKey {
    var entries: seq<Entry>
    var expireAt: Option<int>

    constructor ()
      ensures entries == [] && expireAt == None
    {
      entries, expireAt := [], None;
    }

    method ZRemRangeByScore(cutoff: int)
      requires Sorted(entries)
      modifies this`entries
      ensures entries == Prune(old(entries), cutoff) && Sorted(entries)
    {
      var n := 0;
      while n < |entries| && entries[n].score <= cutoff
        invariant 0 <= n <= |entries|
        invariant forall i :: 0 <= i < n ==> entries[i].score <= cutoff
      {
        n := n + 1;
      }
      PruneSuffix(entries, |entries|, cutoff, n);
      assert entries[n..|entries|] == entries[n..];
      entries := entries[n..];
    }

    method ZAdd(score: int, member: Member)
      requires Sorted(entries) && forall i :: 0 <= i < |entries| ==> entries[i].member != member
      modifies this`entries
      ensures entries == Insert(old(entries), Entry(score, member)) && Sorted(entries)
      ensures |entries| == |old(entries)| + 1
    {
      var e := Entry(score, member);
      var n := |entries|;
      while n > 0 && !Less(entries[n - 1], e)
        invariant 0 <= n <= |entries|
        invariant forall i :: n <= i < |entries| ==> !Less(entries[i], e)
      {
        n := n - 1;
      }
      InsertAt(entries, |entries|, e, n);
      assert entries[n..|entries|] == entries[n..];
      entries := entries[..n] + [e] + entries[n..];
    }

    method ZPopMax()
      requires Sorted(entries)
      modifies this`entries
      ensures entries == PopMax(old(entries)) && Sorted(entries)
    {
      if |entries| > 0 {
        assert PopMax(entries) == entries[..|entries| - 1];
        entries := entries[..|entries| - 1];
      }
    }

    /** `member` is the fresh `uuid4` of the request. */
    method SlidingWindowCheck(now: int, member: Member, limit: int, window: nat)
      returns (allowed: bool, retryAfter: int)
      requires Sorted(entries) && forall i :: 0 <= i < |entries| ==> entries[i].member != member
      modifies this
      ensures Sorted(entries)
      ensures var o := Check(Visible(old(entries), old(expireAt), now), now, member, limit, window);
              && entries == o.entries
              && o.decision == if allowed then Allowed else Denied(retryAfter)
      ensures expireAt == Some(now + (window + 1) * 1000)
      ensures allowed ==> retryAfter == 0
    {
      if expireAt.Some? && expireAt.value <= now {
        entries := [];
      }
      ZRemRangeByScore(now - window * 1000);
      var currentCount := |entries|;
      PruneIn(Visible(old(entries), old(expireAt), now), |Visible(old(entries), old(expireAt), now)|,
              now - window * 1000);
      assert forall i :: 0 <= i < |entries| ==> entries[i] in entries;
      ZAdd(now, member);
      expireAt := Some(now + (window + 1) * 1000);
      if currentCount >= limit {
        ZPopMax();
        var oldest := now;
        if currentCount > 0 {
          oldest := entries[0].score;
        }
        return false, RetryAfter(oldest, now, window);
      }
      return true, 0;
    }
  }
}
