/**
The working memory of a session: a bounded Redis list with a time to live, beside the durable
turns in Postgres. Reading never prolongs the list's life; pushing and rebuilding do.
*/
module SessionCache {
  import opened Wrappers

  type UserId = nat

  datatype Turn = Turn(role: string, content: string, timestamp: int)

  /** What a turn says, whenever it was said. */
  datatype Message = Message(role: string, content: string)

  datatype Error = NotFound | Conflict

  const CONTEXT_WINDOW_TURNS: nat := 6
  const SESSION_TTL: nat := 3600

  function Said(turns: seq<Turn>): seq<Message> {
    seq(|turns|, i requires 0 <= i < |turns| => Message(turns[i].role, turns[i].content))
  }

  /** `xs[-n:]`, and what LTRIM key -n -1 leaves. */
  function LastN<T>(xs: seq<T>, n: nat): seq<T> {
    if |xs| <= n then xs else xs[|xs| - n..]
  }

  // ---- The session's state as a value ----

  datatype Memory = Memory(log: seq<Turn>, cache: seq<Turn>, expireAt: int)

  const FRESH := Memory([], [], 0)

  /** The list as Redis shows it at `now`. */
  function Cached(m: Memory, now: int): seq<Turn> {
    if m.expireAt <= now then [] else m.cache
  }

  /** What get_working_memory returns at `now`. */
  function Recall(m: Memory, now: int, n: nat): seq<Turn> {
    if Cached(m, now) != [] then Cached(m, now) else LastN(m.log, n)
  }

  /** What get_working_memory leaves behind: a cold list is rebuilt, a warm one left alone. */
  function AfterRecall(m: Memory, now: int, n: nat): Memory {
    if Cached(m, now) != [] || LastN(m.log, n) == [] then m.(cache := Cached(m, now))
    else m.(cache := LastN(m.log, n), expireAt := now + SESSION_TTL)
  }

  /** add_turn at `now`; `lands` says whether the push reached Redis. */
  function AfterTurn(m: Memory, role: string, content: string, now: int, lands: bool, n: nat): Memory {
    var t := Turn(role, content, now);
    if lands then Memory(m.log + [t], LastN(Cached(m, now) + [t], n), now + SESSION_TTL)
    else m.(log := m.log + [t])
  }

  // ---- The service, which updates it in place ----

  class SessionService {
    const owner: UserId
    const window: nat
    var log: seq<Turn>
    var turnCount: nat
    var endedAt: Option<int>
    var cache: seq<Turn>
    var expireAt: int

    constructor (owner: UserId, window: nat := CONTEXT_WINDOW_TURNS)
      requires window >= 1
      ensures Now() == FRESH && turnCount == 0 && endedAt == None
      ensures this.owner == owner && this.window == window
    {
      this.owner, this.window := owner, window;
      log, turnCount, endedAt, cache, expireAt := [], 0, None, [], 0;
    }

    ghost function Now(): Memory
      reads this
    {
      Memory(log, cache, expireAt)
    }

    /** RPUSH, LTRIM and EXPIRE in one transaction. */
    method PushTurn(t: Turn, now: int)
      requires window >= 1
      modifies this`cache, this`expireAt
      ensures cache == LastN(Cached(old(Now()), now) + [t], window) && expireAt == now + SESSION_TTL
    {
      if expireAt <= now {
        cache := [];
      }
      cache := cache + [t];
      if |cache| > window {
        cache := cache[|cache| - window..];
      }
      expireAt := now + SESSION_TTL;
    }

    /** DEL, one RPUSH per turn, and EXPIRE in one transaction; nothing for no turns. */
    method WarmCacheFromTurns(turns: seq<Turn>, now: int)
      modifies this`cache, this`expireAt
      ensures if LastN(turns, window) == [] then cache == old(cache) && expireAt == old(expireAt)
              else cache == LastN(turns, window) && expireAt == now + SESSION_TTL
    {
      var recent := LastN(turns, window);
      if |recent| == 0 {
        return;
      }
      cache := [];
      var i := 0;
      while i < |recent|
        invariant 0 <= i <= |recent|
        invariant cache == recent[..i]
      {
        cache := cache + [recent[i]];
        i := i + 1;
      }
      expireAt := now + SESSION_TTL;
    }

    method AddTurn(user: UserId, role: string, content: string, now: int, lands: bool)
      returns (r: Result<Turn, Error>)
      requires window >= 1
      modifies this`log, this`turnCount, this`cache, this`expireAt
      ensures r == if user != owner then Failure(NotFound)
                   else if endedAt != None then Failure(Conflict)
                   else Success(Turn(role, content, now))
      ensures Now() == if r.Success? then AfterTurn(old(Now()), role, content, now, lands, window) else old(Now())
      ensures turnCount - |log| == old(turnCount - |log|)
    {
      if user != owner {
        return Failure(NotFound);
      }
      if endedAt != None {
        return Failure(Conflict);
      }
      var t := Turn(role, content, now);
      log := log + [t];
      turnCount := turnCount + 1;
      if lands {
        PushTurn(t, now);
      }
      return Success(t);
    }

    method GetHistory(user: UserId) returns (r: Result<seq<Turn>, Error>)
      ensures r == if user != owner then Failure(NotFound) else Success(log)
    {
      if user != owner {
        return Failure(NotFound);
      }
      return Success(log);
    }

    method GetWorkingMemory(user: UserId, now: int) returns (r: Result<seq<Turn>, Error>)
      modifies this`cache, this`expireAt
      ensures r == if user != owner then Failure(NotFound) else Success(Recall(old(Now()), now, window))
      ensures Now() == if user != owner then old(Now()) else AfterRecall(old(Now()), now, window)
    {
      if user != owner {
        return Failure(NotFound);
      }
      if expireAt <= now {
        cache := [];
      }
      if cache != [] {
        return Success(cache);
      }
      var history := GetHistory(user);
      WarmCacheFromTurns(history.value, now);
      return Success(LastN(history.value, window));
    }

    method EndSession(user: UserId, now: int) returns (r: Result<bool, Error>)
      modifies this`endedAt, this`cache
      ensures r == if user != owner then Failure(NotFound)
                   else if old(endedAt) != None then Failure(Conflict)
                   else Success(true)
      ensures r.Success? ==> endedAt == Some(now) && cache == []
      ensures !r.Success? ==> endedAt == old(endedAt) && cache == old(cache)
    {
      if user != owner {
        return Failure(NotFound);
      }
      if endedAt != None {
        return Failure(Conflict);
      }
      endedAt := Some(now);
      cache := [];
      return Success(true);
    }
  }

  // ---- Runs of the query route ----

  /** One call of the query route: the memory is read, and after the pipeline has run the
      question and the answer are added. */
  datatype Query = Query(readAt: int, askedAt: int, answeredAt: int, question: string, answer: string)

  function AfterQuery(m: Memory, q: Query, n: nat): Memory {
    var read := AfterRecall(m, q.readAt, n);
    var asked := AfterTurn(read, "user", q.question, q.askedAt, true, n);
    AfterTurn(asked, "assistant", q.answer, q.answeredAt, true, n)
  }

  /** The list that the read found or rebuilt is still alive when the question is pushed, and the
      question's list when the answer is. */
  predicate KeepsAlive(m: Memory, q: Query, n: nat) {
    && q.readAt <= q.askedAt <= q.answeredAt
    && (m.log == [] || q.askedAt < AfterRecall(m, q.readAt, n).expireAt)
    && q.answeredAt < q.askedAt + SESSION_TTL
  }

  /** The list agrees with the log. */
  predicate Exact(m: Memory, n: nat) {
    Said(m.cache) == LastN(Said(m.log), n)
  }

  predicate ColdOrExact(m: Memory, n: nat) {
    m.cache == [] || Exact(m, n)
  }

  lemma SaidLastN(turns: seq<Turn>, n: nat)
    ensures Said(LastN(turns, n)) == LastN(Said(turns), n)
  {
  }

  lemma SaidSnoc(turns: seq<Turn>, t: Turn)
    ensures Said(turns + [t]) == Said(turns) + [Message(t.role, t.content)]
  {
  }

  /** Trimming to the last `n` after a push is what pushing to a trimmed list and trimming does. */
  lemma LastNSnoc<T>(xs: seq<T>, x: T, n: nat)
    requires n >= 1
    ensures LastN(LastN(xs, n) + [x], n) == LastN(xs + [x], n)
  {
  }

  /** Reading: the result is the last `n` durable turns, and the list is exact afterwards. */
  lemma RecallExact(m: Memory, now: int, n: nat)
    requires n >= 1 && ColdOrExact(m, n)
    ensures Said(Recall(m, now, n)) == LastN(Said(m.log), n)
    ensures Exact(AfterRecall(m, now, n), n)
  {
    SaidLastN(m.log, n);
  }

  /** A push to an exact list that is alive, or to the empty list of an empty log. */
  lemma TurnExact(m: Memory, role: string, content: string, now: int, n: nat)
    requires n >= 1 && Exact(m, n) && (m.log == [] || now < m.expireAt)
    ensures Exact(AfterTurn(m, role, content, now, true, n), n)
  {
    var t := Turn(role, content, now);
    assert |Said(m.cache)| == |m.cache|;
    assert m.log == [] ==> m.cache == [];
    assert Cached(m, now) == m.cache;
    SaidLastN(m.cache + [t], n);
    SaidSnoc(m.cache, t);
    SaidSnoc(m.log, t);
    LastNSnoc(Said(m.log), Message(role, content), n);
  }

  lemma QueryExact(m: Memory, q: Query, n: nat)
    requires n >= 1 && ColdOrExact(m, n) && KeepsAlive(m, q, n)
    ensures Said(Recall(m, q.readAt, n)) == LastN(Said(m.log), n)
    ensures Exact(AfterQuery(m, q, n), n)
  {
    RecallExact(m, q.readAt, n);
    var read := AfterRecall(m, q.readAt, n);
    TurnExact(read, "user", q.question, q.askedAt, n);
    var asked := AfterTurn(read, "user", q.question, q.askedAt, true, n);
    TurnExact(asked, "assistant", q.answer, q.answeredAt, n);
  }

  function AfterQueries(m: Memory, qs: seq<Query>, n: nat): Memory
    decreases |qs|
  {
    if qs == [] then m else AfterQueries(AfterQuery(m, qs[0], n), qs[1..], n)
  }

  ghost predicate AllKeepAlive(m: Memory, qs: seq<Query>, n: nat)
    decreases |qs|
  {
    qs == [] || (KeepsAlive(m, qs[0], n) && AllKeepAlive(AfterQuery(m, qs[0], n), qs[1..], n))
  }

  lemma {:induction false} QueriesExact(m: Memory, qs: seq<Query>, n: nat)
    requires n >= 1 && ColdOrExact(m, n) && AllKeepAlive(m, qs, n)
    ensures ColdOrExact(AfterQueries(m, qs, n), n)
    decreases |qs|
  {
    if qs != [] {
      QueryExact(m, qs[0], n);
      QueriesExact(AfterQuery(m, qs[0], n), qs[1..], n);
    }
  }

  /** Cache refines log: over any run of the query route from a new session, with the list expiring
      at any time between requests, the memory read at any later moment is exactly what the last
      `n` durable turns say. */
  lemma CacheRefinesLog(qs: seq<Query>, n: nat, now: int)
    requires n >= 1 && AllKeepAlive(FRESH, qs, n)
    ensures var m := AfterQueries(FRESH, qs, n);
            && ColdOrExact(m, n)
            && Said(Recall(m, now, n)) == LastN(Said(m.log), n)
  {
    QueriesExact(FRESH, qs, n);
    RecallExact(AfterQueries(FRESH, qs, n), now, n);
  }

  /** How long the list lives, exactly: an hour from each push that lands and from each rebuild. A read of a live
      list does not prolong it. */
  lemma ListLives(m: Memory, role: string, content: string, now: int, later: int, n: nat)
    requires n >= 1
    ensures Cached(AfterTurn(m, role, content, now, true, n), later) != [] <==> later < now + 3600
    ensures Cached(AfterRecall(m, now, n), later) != []
       <==> if Cached(m, now) != [] then later < m.expireAt else m.log != [] && later < now + 3600
  {
    LastNLength(Cached(m, now) + [Turn(role, content, now)], n);
    LastNLength(m.log, n);
  }

  // ---- Where it ends ----

  lemma LastNLength<T>(xs: seq<T>, n: nat)
    ensures |LastN(xs, n)| == if |xs| <= n then |xs| else n
  {
  }

  /** Exactly when a request leaves an exact list. For a window of three turns or more: iff the list
      does not expire while the request is in progress. A read does not renew the time to live, so a
      request that starts late in the list's life pushes to an empty one, and later reads return the
      fragment. A window of two needs only the question to be there still when the answer is pushed,
      and a window of one nothing. */
  lemma ExactIffKeepsAlive(m: Memory, q: Query, n: nat)
    requires n >= 1 && ColdOrExact(m, n) && q.readAt <= q.askedAt <= q.answeredAt
    ensures Exact(AfterQuery(m, q, n), n)
       <==> n == 1 || (n == 2 && q.answeredAt < q.askedAt + SESSION_TTL) || KeepsAlive(m, q, n)
  {
    if KeepsAlive(m, q, n) {
      QueryExact(m, q, n);
    } else if n >= 3 {
      ShortAfterExpiry(m, q, n);
    } else {
      SmallWindow(m, q, n);
    }
  }

  lemma ShortAfterExpiry(m: Memory, q: Query, n: nat)
    requires n >= 3 && q.readAt <= q.askedAt <= q.answeredAt && !KeepsAlive(m, q, n)
    ensures !Exact(AfterQuery(m, q, n), n)
  {
    var m' := AfterQuery(m, q, n);
    var read := AfterRecall(m, q.readAt, n);
    var asked := AfterTurn(read, "user", q.question, q.askedAt, true, n);
    assert |m'.log| == |m.log| + 2;
    LastNLength(Said(m'.log), n);
    if q.answeredAt >= q.askedAt + SESSION_TTL {
      assert Cached(asked, q.answeredAt) == [];
      assert |m'.cache| == 1;
    } else {
      assert Cached(read, q.askedAt) == [];
      assert |asked.cache| == 1;
      assert |m'.cache| == 2;
    }
    assert |Said(m'.cache)| < |LastN(Said(m'.log), n)|;
  }

  lemma LastTwo<T>(xs: seq<T>, x: T, y: T, n: nat)
    requires 1 <= n <= 2
    ensures LastN(xs + [x] + [y], n) == if n == 1 then [y] else [x, y]
  {
  }

  lemma LastOne<T>(xs: seq<T>, x: T, n: nat)
    requires 1 <= n
    ensures LastN(xs + [x], n) != [] && LastN(xs + [x], n)[|LastN(xs + [x], n)| - 1] == x
  {
  }

  lemma PushAfter(cache: seq<Turn>, x: Turn, y: Turn, n: nat)
    requires 1 <= n <= 2 && cache != [] && cache[|cache| - 1] == x
    ensures LastN(cache + [y], n) == if n == 1 then [y] else [x, y]
  {
    assert cache == cache[..|cache| - 1] + [x];
    LastTwo(cache[..|cache| - 1], x, y, n);
  }

  /** The last two turns of the log are the question and the answer. */
  lemma SmallWindow(m: Memory, q: Query, n: nat)
    requires 1 <= n <= 2
    ensures Exact(AfterQuery(m, q, n), n) <==> n == 1 || q.answeredAt < q.askedAt + SESSION_TTL
  {
    var question, answer := Turn("user", q.question, q.askedAt), Turn("assistant", q.answer, q.answeredAt);
    var read := AfterRecall(m, q.readAt, n);
    var asked := AfterTurn(read, "user", q.question, q.askedAt, true, n);
    LastOne(Cached(read, q.askedAt), question, n);
    assert read.log == m.log && asked.log == m.log + [question];
    LastTwo(m.log, question, answer, n);
    SaidLastN(m.log + [question] + [answer], n);
    if q.answeredAt < q.askedAt + SESSION_TTL {
      PushAfter(asked.cache, question, answer, n);
    } else {
      assert Cached(asked, q.answeredAt) == [] && [] + [answer] == [answer];
      assert |Said([answer])| == 1 && |Said([question, answer])| == 2;
    }
  }

  lemma {:induction false} ShiftSame<T>(xs: seq<T>, x: T, n: nat, i: nat)
    requires 1 <= n <= |xs| && |xs| - n <= i < |xs|
    requires LastN(xs, n) == LastN(xs + [x], n)
    ensures xs[i] == x
    decreases |xs| - i
  {
    var k := i - (|xs| - n);
    assert LastN(xs, n)[k] == xs[i] && LastN(xs + [x], n)[k] == (xs + [x])[i + 1];
    if i + 1 < |xs| {
      ShiftSame(xs, x, n, i + 1);
    }
  }

  /** One more item changes the last `n` unless they are all that item. */
  lemma LastNSameIff<T>(xs: seq<T>, x: T, n: nat)
    requires n >= 1
    ensures LastN(xs, n) == LastN(xs + [x], n) <==> n <= |xs| && forall i :: |xs| - n <= i < |xs| ==> xs[i] == x
  {
    LastNLength(xs, n);
    LastNLength(xs + [x], n);
    if n <= |xs| && LastN(xs, n) == LastN(xs + [x], n) {
      forall i | |xs| - n <= i < |xs|
        ensures xs[i] == x
      {
        ShiftSame(xs, x, n, i);
      }
    }
  }

  /** What a read returns after a push that failed, the list being exact before: the durable turns
      exactly when there was no list, it has expired by then, or the whole window already says what
      the lost turn says. The fall-back to Postgres is for a cold list only. */
  lemma LostPushStaleIff(m: Memory, role: string, content: string, now: int, later: int, n: nat)
    requires n >= 1 && Exact(m, n) && now <= later
    ensures var m' := AfterTurn(m, role, content, now, false, n);
            var said := Said(m.log);
            Said(Recall(m', later, n)) == LastN(Said(m'.log), n)
            <==> || m.log == [] || m.expireAt <= later
                 || (n <= |said| && forall i :: |said| - n <= i < |said| ==> said[i] == Message(role, content))
  {
    var m' := AfterTurn(m, role, content, now, false, n);
    SaidSnoc(m.log, Turn(role, content, now));
    SaidLastN(m'.log, n);
    assert |Said(m.cache)| == |m.cache|;
    LastNLength(Said(m.log), n);
    if m.log != [] && later < m.expireAt {
      LastNSameIff(Said(m.log), Message(role, content), n);
    }
  }

  // ---- What survives failures ----

  /** `idx` places the messages of `a`, in order, in `b`. */
  ghost predicate Embeds(idx: seq<nat>, a: seq<Message>, b: seq<Message>) {
    && |idx| == |a|
    && (forall i, j :: 0 <= i < j < |idx| ==> idx[i] < idx[j])
    && (forall i :: 0 <= i < |idx| ==> idx[i] < |b| && b[idx[i]] == a[i])
  }

  ghost predicate Subsequence(a: seq<Message>, b: seq<Message>) {
    exists idx :: Embeds(idx, a, b)
  }

  datatype Event =
    | Read(now: int)
    | Add(role: string, content: string, now: int, lands: bool)
    | Lose

  /** Lose: the key expires or is evicted. */
  function Happens(m: Memory, e: Event, n: nat): Memory {
    match e
    case Read(now) => AfterRecall(m, now, n)
    case Add(role, content, now, lands) => AfterTurn(m, role, content, now, lands, n)
    case Lose => m.(cache := [])
  }

  ghost predicate Bounded(m: Memory, n: nat) {
    |m.cache| <= n && Subsequence(Said(m.cache), Said(m.log))
  }

  lemma LastNEmbeds(b: seq<Message>, n: nat)
    ensures Subsequence(LastN(b, n), b)
  {
    var a := LastN(b, n);
    var idx: seq<nat> := seq(|a|, i requires 0 <= i < |a| => i + |b| - |a|);
    assert Embeds(idx, a, b);
  }

  lemma DropEmbeds(a: seq<Message>, b: seq<Message>, n: nat)
    requires Subsequence(a, b)
    ensures Subsequence(LastN(a, n), b)
  {
    var idx: seq<nat> :| Embeds(idx, a, b);
    var c := LastN(a, n);
    var k := |a| - |c|;
    var rest := idx[k..];
    assert forall i :: 0 <= i < |rest| ==> rest[i] == idx[k + i] && c[i] == a[k + i];
    assert Embeds(rest, c, b);
  }

  lemma SnocEmbeds(a: seq<Message>, b: seq<Message>, x: Message)
    requires Subsequence(a, b)
    ensures Subsequence(a + [x], b + [x]) && Subsequence(a, b + [x])
  {
    var idx: seq<nat> :| Embeds(idx, a, b);
    var longer: seq<nat> := idx + [|b|];
    assert Embeds(longer, a + [x], b + [x]);
    assert Embeds(idx, a, b + [x]);
  }

  lemma NothingEmbeds(b: seq<Message>)
    ensures Subsequence([], b)
  {
    assert Embeds([], [], b);
  }

  lemma HappensBounded(m: Memory, e: Event, n: nat)
    requires n >= 1 && Bounded(m, n)
    ensures Bounded(Happens(m, e, n), n)
  {
    NothingEmbeds(Said(m.log));
    assert Said([]) == [];
    match e
    case Read(now) =>
      SaidLastN(m.log, n);
      LastNEmbeds(Said(m.log), n);
    case Add(role, content, now, lands) =>
      var t := Turn(role, content, now);
      SaidSnoc(m.log, t);
      if lands {
        var c := Cached(m, now);
        SaidSnoc(c, t);
        SnocEmbeds(Said(c), Said(m.log), Message(role, content));
        SaidLastN(c + [t], n);
        DropEmbeds(Said(c + [t]), Said(m.log + [t]), n);
      } else {
        SnocEmbeds(Said(m.cache), Said(m.log), Message(role, content));
      }
    case Lose =>
  }

  function HappenAll(m: Memory, es: seq<Event>, n: nat): Memory
    decreases |es|
  {
    if es == [] then m else HappenAll(Happens(m, es[0], n), es[1..], n)
  }

  lemma {:induction false} StaysBounded(m: Memory, es: seq<Event>, n: nat)
    requires n >= 1 && Bounded(m, n)
    ensures Bounded(HappenAll(m, es, n), n)
    decreases |es|
  {
    if es != [] {
      HappensBounded(m, es[0], n);
      StaysBounded(Happens(m, es[0], n), es[1..], n);
    }
  }

  /** Under lost pushes, pushes to an expired list and evictions, in any order, what remains is:
      at most `n` messages, all of them said, in the order they were said. */
  lemma CacheIsSubsequence(es: seq<Event>, n: nat)
    requires n >= 1
    ensures var m := HappenAll(FRESH, es, n);
            |m.cache| <= n && Subsequence(Said(m.cache), Said(m.log))
  {
    NothingEmbeds([]);
    assert Said([]) == [];
    StaysBounded(FRESH, es, n);
  }

  // ---- Recovery ----

  /** The last `k` cached messages are the last `k` durable ones. */
  predicate AgreesOn(m: Memory, k: nat) {
    && k <= |m.cache| && k <= |m.log|
    && LastN(Said(m.cache), k) == LastN(Said(m.log), k)
  }

  lemma AgreesMore(m: Memory, role: string, content: string, now: int, n: nat, k: nat)
    requires n >= 1 && AgreesOn(m, k) && now < m.expireAt
    ensures AgreesOn(AfterTurn(m, role, content, now, true, n), if k < n then k + 1 else n)
  {
    var t := Turn(role, content, now);
    var x := Message(role, content);
    SaidSnoc(m.cache, t);
    SaidSnoc(m.log, t);
    SaidLastN(m.cache + [t], n);
    LastNLength(m.cache + [t], n);
    var k' := if k < n then k + 1 else n;
    var a, b := Said(m.cache), Said(m.log);
    assert LastN(a + [x], k + 1) == LastN(a, k) + [x];
    assert LastN(b + [x], k + 1) == LastN(b, k) + [x];
    LastNLastN(a + [x], n, k');
    LastNLastN(a + [x], k + 1, k');
    LastNLastN(b + [x], k + 1, k');
  }

  lemma LastNLastN<T>(xs: seq<T>, n: nat, k: nat)
    requires k <= n
    ensures LastN(LastN(xs, n), k) == LastN(xs, k)
  {
  }

  /** Pushes that all land, none more than the time to live after the one before. */
  predicate Steady(m: Memory, adds: seq<Event>)
    decreases |adds|
  {
    adds == [] || (adds[0].Add? && adds[0].lands && adds[0].now < m.expireAt
                   && Steady(m.(expireAt := adds[0].now + SESSION_TTL), adds[1..]))
  }

  lemma {:induction false} SteadyAgrees(m: Memory, adds: seq<Event>, n: nat, k: nat)
    requires n >= 1 && AgreesOn(m, k) && k <= n && Steady(m, adds)
    ensures AgreesOn(HappenAll(m, adds, n), if k + |adds| < n then k + |adds| else n)
    decreases |adds|
  {
    if adds != [] {
      var k' := if k < n then k + 1 else n;
      SteadyFirst(m, adds, n, k, k');
      SteadyAgrees(Happens(m, adds[0], n), adds[1..], n, k');
    }
  }

  lemma SteadyFirst(m: Memory, adds: seq<Event>, n: nat, k: nat, k': nat)
    requires n >= 1 && AgreesOn(m, k) && Steady(m, adds) && adds != [] && k' == if k < n then k + 1 else n
    ensures AgreesOn(Happens(m, adds[0], n), k') && Steady(Happens(m, adds[0], n), adds[1..])
  {
    var e := adds[0];
    AgreesMore(m, e.role, e.content, e.now, n, k);
    SteadySame(Happens(m, e, n), m.(expireAt := e.now + SESSION_TTL), adds[1..]);
  }

  lemma {:induction false} SteadySame(m: Memory, m': Memory, adds: seq<Event>)
    requires m.expireAt == m'.expireAt && Steady(m', adds)
    ensures Steady(m, adds)
    decreases |adds|
  {
    if adds != [] {
      SteadySame(m.(expireAt := adds[0].now + SESSION_TTL), m'.(expireAt := adds[0].now + SESSION_TTL), adds[1..]);
    }
  }

  /** The cache heals itself: whatever it missed before, after `n` pushes in a row that land while
      it is alive it is exact again. */
  lemma HealsAfterWindow(es: seq<Event>, adds: seq<Event>, n: nat)
    requires n >= 1 && |adds| >= n && Steady(HappenAll(FRESH, es, n), adds)
    ensures Exact(HappenAll(HappenAll(FRESH, es, n), adds, n), n)
  {
    var m := HappenAll(FRESH, es, n);
    assert LastN(Said(m.cache), 0) == LastN(Said(m.log), 0);
    SteadyAgrees(m, adds, n, 0);
    NothingEmbeds([]);
    assert Said([]) == [];
    StaysBounded(FRESH, es, n);
    StaysBounded(m, adds, n);
    var m' := HappenAll(m, adds, n);
    assert |m'.cache| == n;
    assert LastN(Said(m'.cache), n) == Said(m'.cache);
  }

  // ---- History ----

  /** What the events of a session said, in order. */
  function SaidIn(es: seq<Event>): seq<Message>
    decreases |es|
  {
    if es == [] then []
    else if es[0].Add? then [Message(es[0].role, es[0].content)] + SaidIn(es[1..])
    else SaidIn(es[1..])
  }

  lemma {:induction false} LogGrows(m: Memory, es: seq<Event>, n: nat)
    ensures Said(HappenAll(m, es, n).log) == Said(m.log) + SaidIn(es)
    decreases |es|
  {
    if es != [] {
      LogGrows(Happens(m, es[0], n), es[1..], n);
      if es[0].Add? {
        SaidSnoc(m.log, Turn(es[0].role, es[0].content, es[0].now));
      }
    }
  }

  /** The history is every turn that was added, in order, whatever reads, expiries and failed pushes
      did to the list in between. */
  lemma HistoryKeepsEveryTurn(es: seq<Event>, n: nat)
    ensures Said(HappenAll(FRESH, es, n).log) == SaidIn(es)
  {
    LogGrows(FRESH, es, n);
  }
}
