/**
The query route from end to end: the working memory is read and handed to the pipeline, and the question and
the answer are added to the session.
*/
module QueryRoute {
  import opened Arithmetic
  import Retrieved
  import opened SessionCache

  /** What the route hands to the pipeline: the roles and contents of what it read. */
  function HistoryOf(turns: seq<Turn>): seq<Retrieved.Turn> {
    seq(|turns|, i requires 0 <= i < |turns| => Retrieved.Turn(turns[i].role, turns[i].content))
  }

  /** Questions and answers in turn. */
  function Conversation(qs: seq<Query>): seq<Retrieved.Turn> {
    if qs == [] then []
    else
      [Retrieved.Turn("user", qs[0].question), Retrieved.Turn("assistant", qs[0].answer)] + Conversation(qs[1..])
  }

  lemma HistoryJoin(a: seq<Turn>, b: seq<Turn>)
    ensures HistoryOf(a + b) == HistoryOf(a) + HistoryOf(b)
  {
  }

  lemma AfterOne(m: Memory, q: Query, n: nat)
    ensures HistoryOf(AfterQuery(m, q, n).log)
         == HistoryOf(m.log) + [Retrieved.Turn("user", q.question), Retrieved.Turn("assistant", q.answer)]
  {
    var asked, answered := Turn("user", q.question, q.askedAt), Turn("assistant", q.answer, q.answeredAt);
    assert AfterQuery(m, q, n).log == m.log + [asked, answered];
    HistoryJoin(m.log, [asked, answered]);
  }

  lemma {:induction false} LogAfter(m: Memory, qs: seq<Query>, n: nat)
    ensures HistoryOf(AfterQueries(m, qs, n).log) == HistoryOf(m.log) + Conversation(qs)
    decreases |qs|
  {
    if qs != [] {
      AfterOne(m, qs[0], n);
      LogAfter(AfterQuery(m, qs[0], n), qs[1..], n);
    }
  }

  /** The conversation of a session: after any requests to a new one, every question and every answer is durable, in
      turn, whatever became of the list. */
  lemma ConversationLogged(qs: seq<Query>, n: nat)
    ensures HistoryOf(AfterQueries(FRESH, qs, n).log) == Conversation(qs)
  {
    LogAfter(FRESH, qs, n);
  }

  lemma {:induction false} ConversationTail(qs: seq<Query>, k: nat)
    requires k <= |qs|
    ensures |Conversation(qs)| == 2 * |qs| && Conversation(qs)[2 * k..] == Conversation(qs[k..])
  {
    if qs != [] {
      ConversationTail(qs[1..], if k > 0 then k - 1 else 0);
      if k > 0 {
        assert Conversation(qs)[2 * k..] == Conversation(qs[1..])[2 * (k - 1)..];
        assert qs[1..][k - 1..] == qs[k..];
      } else {
        assert qs[0..] == qs;
      }
    }
  }

  /** What says the same is handed over as the same. */
  lemma SameHistory(a: seq<Turn>, b: seq<Turn>, from: nat)
    requires from <= |b| && Said(a) == Said(b)[from..]
    ensures HistoryOf(a) == HistoryOf(b)[from..]
  {
    assert |Said(a)| == |a| && |Said(b)| == |b|;
    forall i | 0 <= i < |a|
      ensures a[i].role == b[from + i].role && a[i].content == b[from + i].content
    {
      assert Said(a)[i] == Said(b)[from..][i];
    }
  }

  lemma SaidTail(log: seq<Turn>, n: nat)
    ensures |HistoryOf(log)| == |log| && LastN(Said(log), n) == Said(log)[|log| - Min(n, |log|)..]
  {
    assert |Said(log)| == |log|;
  }

  /** What the pipeline gets as history: as long as the requests keep the list alive, the latest turns of the
      conversation, in order, `n` of them or all there are. */
  lemma HistoryHandedOver(qs: seq<Query>, n: nat, now: int)
    requires n >= 1 && AllKeepAlive(FRESH, qs, n)
    ensures var turns := Conversation(qs);
            HistoryOf(Recall(AfterQueries(FRESH, qs, n), now, n)) == turns[|turns| - Min(n, |turns|)..]
  {
    var m := AfterQueries(FRESH, qs, n);
    CacheRefinesLog(qs, n, now);
    ConversationLogged(qs, n);
    var from := |m.log| - Min(n, |m.log|);
    SaidTail(m.log, n);
    SameHistory(Recall(m, now, n), m.log, from);
  }

  /** At the default window: the latest three questions and answers. */
  lemma DefaultHistory(qs: seq<Query>, n: nat, now: int)
    requires n == CONTEXT_WINDOW_TURNS && AllKeepAlive(FRESH, qs, n) && |qs| >= 3
    ensures HistoryOf(Recall(AfterQueries(FRESH, qs, n), now, n)) == Conversation(qs[|qs| - 3..])
  {
    HistoryHandedOver(qs, n, now);
    ConversationTail(qs, |qs| - 3);
  }
}
