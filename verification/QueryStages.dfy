/** What each attempt of the query pipeline asks the services, and what it makes of their answers. */
module QueryStages {
  import opened Wrappers
  import opened Strings
  import opened Retrieved
  import opened Search
  import opened RrfLaws
  import opened Reranker
  import opened Format
  import opened ContextBuilder
  import opened Prompts
  import opened Critic
  import opened QueryPipeline
  import opened QueryContract

  // ---- The stages of an attempt ----

  /** The lists of the attempt are what the searches found for its own query, and its candidates their cut. */
  ghost predicate Retrieves(w: World, cfg: Config, j: nat, k: nat, a: Attempt) {
    && w.embeds(j, a.query)
    && Bm25Found(w.bm25(j, a.query, k)) == Success(a.bm25)
    && DenseFound(w.dense(j, a.query, k)) == Success(a.dense)
    && a.candidates == Cut(a.bm25, a.dense, cfg.rrfK, k)
  }

  ghost predicate Selects(w: World, cfg: Config, j: nat, a: Attempt) {
    Reranked(a.query, a.candidates, cfg.topK, cfg.topK, w.backend(j)) == Success(a.reranked)
  }

  /** The model was sent `message`, which is the conversation and the selected chunks with the user's own query in it,
      and replied with the answer of the attempt. */
  ghost predicate Generates(w: World, cfg: Config, query: string, history: seq<Turn>, j: nat, a: Attempt,
                            message: string)
  {
    && Fill(ContextTemplate(a.reranked, history, w.count, cfg.budgets), query, w.fmt) == Some(message)
    && w.model(j)(message) == Some(a.answer)
    && a.used == ContextUsed(a.reranked, w.count, cfg.budgets)
  }

  /** `parts` are the chunks the model was shown, numbered from 1. */
  predicate NumberedFrom1(parts: seq<string>, used: seq<Chunk>) {
    |parts| == |used| && forall i :: 0 <= i < |used| ==> parts[i] == "[" + Decimal(i + 1) + "] " + used[i].text
  }

  /** The critic was asked about the answer and the chunks it was made from, and the verdict is what its reply says:
      its own claims with PASS or FAIL, and FAIL without claims if that cannot be read. */
  ghost predicate Judges(w: World, j: nat, a: Attempt, parts: seq<string>, raw: string) {
    && NumberedFrom1(parts, a.used)
    && w.critic(j)("### Source excerpts:\n"
                   + (if parts == [] then "(no source excerpts were available)" else Join("\n\n", parts))
                   + "\n\n### Answer to check:\n" + a.answer) == Some(raw)
    && match w.parse(StripJsonFences(raw))
       case NotJson => !a.verdict.passed && a.verdict.claims == Items([])
       case NotObject => false
       case Object(Other, _) => !a.verdict.passed && a.verdict.claims == Items([])
       case Object(Pass, claims) => a.verdict.passed && a.verdict.claims == claims && claims != Unsized
       case Object(Fail, claims) => !a.verdict.passed && a.verdict.claims == claims && claims != Unsized
  }

  lemma TriedRetrieves(w: World, cfg: Config, query: string, history: seq<Turn>, j: nat, current: string, k: nat,
                       a: Attempt)
    requires Tried(w, cfg, query, history, j, current, k) == Success(a) && (k == 0 ==> cfg.recall == 0)
    ensures a.query == current && Retrieves(w, cfg, j, k, a) && Selects(w, cfg, j, a)
  {
  }

  lemma TriedGenerates(w: World, cfg: Config, query: string, history: seq<Turn>, j: nat, current: string, k: nat,
                       a: Attempt)
    returns (message: string)
    requires Tried(w, cfg, query, history, j, current, k) == Success(a)
    ensures Generates(w, cfg, query, history, j, a, message)
  {
    message := Fill(ContextTemplate(a.reranked, history, w.count, cfg.budgets), query, w.fmt).value;
  }

  lemma TriedJudges(w: World, cfg: Config, query: string, history: seq<Turn>, j: nat, current: string, k: nat,
                    a: Attempt)
    returns (parts: seq<string>, raw: string)
    requires Tried(w, cfg, query, history, j, current, k) == Success(a)
    ensures Judges(w, j, a, parts, raw)
  {
    TriedStages(w, cfg, query, history, j, current, k, a);
    parts, raw := CheckJudges(w, j, a);
  }

  lemma CheckJudges(w: World, j: nat, a: Attempt) returns (parts: seq<string>, raw: string)
    requires CheckGroundedness(a.answer, a.used, w.critic(j), w.parse) == Success(a.verdict)
    ensures Judges(w, j, a, parts, raw)
  {
    parts := Numbered(a.used);
    raw := w.critic(j)(CriticMessage(a.answer, a.used)).value;
    CriticReads(a.answer, a.used, parts);
    assert forall i :: 0 <= i < |parts| ==> parts[i] == "[" + Decimal(i + 1) + "] " + a.used[i].text by {
      forall i | 0 <= i < |parts|
        ensures parts[i] == "[" + Decimal(i + 1) + "] " + a.used[i].text
      {
        assert "[" + Decimal(i + 1) + "]" + " " + a.used[i].text == "[" + Decimal(i + 1) + "] " + a.used[i].text;
      }
    }
  }

  lemma CriticReads(answer: string, used: seq<Chunk>, parts: seq<string>)
    requires parts == Numbered(used)
    ensures CriticMessage(answer, used)
         == "### Source excerpts:\n"
            + (if parts == [] then "(no source excerpts were available)" else Join("\n\n", parts))
            + "\n\n### Answer to check:\n" + answer
  {
  }

  /** What happens on attempt `j`: it searches for its own query with its own recall, reranks with that query, asks the
      model the user's query with the whole history, and has the critic judge that answer. */
  lemma AttemptReads(w: World, cfg: Config, query: string, history: seq<Turn>, j: nat)
    returns (message: string, parts: seq<string>, raw: string)
    requires cfg.maxRetries >= 0 && j < |Attempted(w, cfg, query, history)|
    ensures var a := Attempted(w, cfg, query, history)[j];
            && Retrieves(w, cfg, j, RecallAt(cfg.recall, j), a) && Selects(w, cfg, j, a)
            && Generates(w, cfg, query, history, j, a, message)
            && Judges(w, j, a, parts, raw)
  {
    var run := Attempted(w, cfg, query, history);
    var a := run[j];
    var k := RecallAt(cfg.recall, j);
    RetryContract(w, cfg, query, history);
    NoRecall(cfg.recall, j);
    assert IsAttempt(Attempts(w, cfg, query, history), query, run, 0, cfg.recall, j);
    assert Tried(w, cfg, query, history, j, a.query, k) == Success(a);
    TriedRetrieves(w, cfg, query, history, j, a.query, k, a);
    message := TriedGenerates(w, cfg, query, history, j, a.query, k, a);
    parts, raw := TriedJudges(w, cfg, query, history, j, a.query, k, a);
  }

  /** Without braces in conversation and excerpts, letter by letter: the turns that fit, in order, the excerpts that
      fit, with their ranks, and the user's query. */
  lemma PlainAttemptReads(w: World, cfg: Config, query: string, history: seq<Turn>, j: nat)
    returns (turns: seq<string>, from: nat, parts: seq<string>, kept: seq<nat>)
    requires cfg.maxRetries >= 0 && j < |Attempted(w, cfg, query, history)|
    requires BraceFree(HistoryText(history, w.count, cfg.budgets.history))
    requires BraceFree(ChunksText(Attempted(w, cfg, query, history)[j].reranked, w.count, cfg.budgets.chunks))
    ensures var a := Attempted(w, cfg, query, history)[j];
            && ReadAsTurns(turns, history, 0) && from <= |turns|
            && ReadAsExcerpts(parts, a.reranked, kept) && Increasing(kept) && a.used == AtKept(a.reranked, kept)
            && w.model(j)("### Conversation so far:\n"
                          + (if turns[from..] == [] then "(no prior turns)" else Join("", turns[from..]))
                          + "\n\n### Source excerpts:\n"
                          + (if parts == [] then "(no relevant sources found)" else Join("\n", parts))
                          + "\n\n### Question:\n" + query) == Some(a.answer)
  {
    var a := Attempted(w, cfg, query, history)[j];
    var message, x, y := AttemptReads(w, cfg, query, history, j);
    turns, from, parts, kept := PlainMessageReads(a.reranked, history, w.count, cfg.budgets, query, w.fmt);
  }

  lemma PlainMessageReads(chunks: seq<Chunk>, history: seq<Turn>, count: Counter, budgets: Budgets, query: string,
                          fmt: Formatter)
    returns (turns: seq<string>, from: nat, parts: seq<string>, kept: seq<nat>)
    requires BraceFree(HistoryText(history, count, budgets.history))
    requires BraceFree(ChunksText(chunks, count, budgets.chunks))
    ensures ReadAsTurns(turns, history, 0) && from <= |turns|
    ensures ReadAsExcerpts(parts, chunks, kept) && Increasing(kept)
    ensures ContextUsed(chunks, count, budgets) == AtKept(chunks, kept)
    ensures Fill(ContextTemplate(chunks, history, count, budgets), query, fmt)
         == Some("### Conversation so far:\n"
                 + (if turns[from..] == [] then "(no prior turns)" else Join("", turns[from..]))
                 + "\n\n### Source excerpts:\n"
                 + (if parts == [] then "(no relevant sources found)" else Join("\n", parts))
                 + "\n\n### Question:\n" + query)
  {
    var excerpts;
    turns, from, excerpts, parts, kept := MessageReads(chunks, history, count, budgets);
    var x := "### Conversation so far:\n"
      + (if turns[from..] == [] then "(no prior turns)" else Join("", turns[from..]))
      + "\n\n### Source excerpts:\n"
      + (if parts == [] then "(no relevant sources found)" else Join("\n", parts))
      + "\n\n### Question:\n";
    var historyText := HistoryText(history, count, budgets.history);
    var chunksText := ChunksText(chunks, count, budgets.chunks);
    PlainFill(historyText, chunksText, query, fmt);
    SameFront(Prompt(historyText, chunksText), x);
  }

  lemma SameFront(a: string, b: string)
    requires a + "{query}" == b + "{query}"
    ensures a == b
  {
    assert (a + "{query}")[..|a|] == a && (b + "{query}")[..|b|] == b;
  }

  // ---- From attempt to attempt ----

  /** The first attempt asks the user's query. After a FAIL with claims the next one asks that query and the claims of
      the reply, whatever was asked before; after one without it asks what was asked before. No attempt follows
      claims that are not all strings. */
  lemma NextAsks(w: World, cfg: Config, query: string, history: seq<Turn>, j: nat)
    requires cfg.maxRetries >= 0 && j < |Attempted(w, cfg, query, history)|
    ensures Attempted(w, cfg, query, history)[0].query == query
    ensures j + 1 < |Attempted(w, cfg, query, history)| ==>
              var a, next := Attempted(w, cfg, query, history)[j], Attempted(w, cfg, query, history)[j + 1];
              && !a.verdict.passed
              && match a.verdict.claims
                 case Items(items) =>
                   next.query == if items == [] then a.query
                                 else query + " -- specifically regarding: " + Join("; ", items)
                 case Absent => next.query == a.query
                 case _ => false
  {
    var run := Attempted(w, cfg, query, history);
    RetryContract(w, cfg, query, history);
    assert IsAttempt(Attempts(w, cfg, query, history), query, run, 0, cfg.recall, j);
    var message, parts, raw := AttemptReads(w, cfg, query, history, j);
  }

  /** Those end the query with an uncaught error, if a retry was left. */
  lemma MixedClaimsFail(w: World, cfg: Config, query: string, history: seq<Turn>)
    requires 0 < |Attempted(w, cfg, query, history)| <= cfg.maxRetries
    requires var run := Attempted(w, cfg, query, history);
             !run[|run| - 1].verdict.passed && run[|run| - 1].verdict.claims == Mixed
    ensures Pipeline(w, cfg, query, history) == Failure(UncaughtError)
  {
    var run := Attempted(w, cfg, query, history);
    RetryContract(w, cfg, query, history);
    assert Breaks(Attempts(w, cfg, query, history), cfg.maxRetries, query, run, 0, query, cfg.recall, UncaughtError);
    FailsIff(w, cfg, query, history, UncaughtError);
  }

  /** What the caller gets: the answer of the last attempt, on FAIL with the note behind it. If the settings allow no
      attempt at all: the note alone. */
  lemma ResponseReads(w: World, cfg: Config, query: string, history: seq<Turn>, r: Response, note: string)
    requires Pipeline(w, cfg, query, history) == Success(r)
    requires note == "\n\nNote: some claims in this answer could not be fully verified "
                     + "against the source documents. Please double-check before relying on it."
    ensures cfg.maxRetries < 0 ==> r == Response(note, [], false, 0, 0)
    ensures cfg.maxRetries >= 0 ==>
              var run := Attempted(w, cfg, query, history);
              && run != []
              && r.answer == (if r.passed then run[|run| - 1].answer else run[|run| - 1].answer + note)
              && r.sources == run[|run| - 1].used && r.passed == run[|run| - 1].verdict.passed
              && r.criticCorrections == |run| - 1
              && r.retryCount == (if r.passed then |run| - 1 else |run|)
  {
    ResponseIs(w, cfg, query, history, r, note);
  }

  lemma ResponseIs(w: World, cfg: Config, query: string, history: seq<Turn>, r: Response, note: string)
    requires Pipeline(w, cfg, query, history) == Success(r) && note == NOTE
    ensures cfg.maxRetries < 0 ==> r == Response(note, [], false, 0, 0)
    ensures cfg.maxRetries >= 0 ==>
              var run := Attempted(w, cfg, query, history);
              && run != []
              && r.answer == (if r.passed then run[|run| - 1].answer else run[|run| - 1].answer + note)
              && r.sources == run[|run| - 1].used && r.passed == run[|run| - 1].verdict.passed
              && r.criticCorrections == |run| - 1
              && r.retryCount == (if r.passed then |run| - 1 else |run|)
  {
    if cfg.maxRetries >= 0 {
      RetryContract(w, cfg, query, history);
    }
  }

  /** At the default settings: at most three attempts, which ask for 100, 200 and 400 results, fuse with constant 60,
      select ten, and have 800 tokens of history and 2000 of excerpts. */
  lemma DefaultAttempts(w: World, query: string, history: seq<Turn>, j: nat)
    requires j < |Attempted(w, DEFAULTS, query, history)|
    ensures |Attempted(w, DEFAULTS, query, history)| <= 3
    ensures DEFAULTS == Config(2, 100, 10, 60, Budgets(800, 2000))
    ensures RecallAt(DEFAULTS.recall, j) == if j == 0 then 100 else if j == 1 then 200 else 400
  {
    RetryContract(w, DEFAULTS, query, history);
    if j > 0 {
      assert RecallAt(100, 1) == NextRecall(RecallAt(100, 0)) == 200;
      assert RecallAt(100, 2) == NextRecall(RecallAt(100, 1)) == 400;
    }
  }
}
