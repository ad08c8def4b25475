/**
The query pipeline: retrieve, rerank, generate, check, and on FAIL again with a sharper query and
a larger recall, at most `maxRetries` more times.
*/
module QueryPipeline {
  import opened Wrappers
  import opened Strings
  import opened Retrieved
  import opened Search
  import opened RrfFusion
  import opened RrfLaws
  import opened Reranker
  import opened Format
  import opened ContextBuilder
  import opened Critic

  /** What the services answer, attempt by attempt. `None` or `false`: the call raised. The searches
      run at the same time; `lexicalFirst` says which error is raised first if both fail. */
  datatype World = World(
    embeds: (nat, string) -> bool,
    bm25: (nat, string, nat) -> EsReply,
    dense: (nat, string, nat) -> QdrantReply,
    lexicalFirst: nat -> bool,
    backend: nat -> Backend,
    model: nat -> Model,
    critic: nat -> Model,
    parse: Parser,
    count: Counter,
    fmt: Formatter)

  /** The settings. The number of retries may be negative. */
  datatype Config = Config(maxRetries: int, recall: nat, topK: nat, rrfK: nat, budgets: Budgets)

  const DEFAULTS := Config(2, 100, 10, RRF_K, DEFAULT)

  const MAX_RECALL: nat := 500

  const NOTE := "\n\nNote: some claims in this answer could not be fully verified "
    + "against the source documents. Please double-check before relying on it."

  /** What one turn of the loop saw and did. */
  datatype Attempt = Attempt(
    query: string,
    recall: nat,
    bm25: seq<Chunk>,
    dense: seq<Chunk>,
    candidates: seq<Chunk>,
    reranked: seq<Chunk>,
    answer: string,
    used: seq<Chunk>,
    verdict: Verdict)

  datatype Response = Response(
    answer: string,
    sources: seq<Chunk>,
    passed: bool,
    criticCorrections: nat,
    retryCount: nat)

  // ---- One attempt ----

  type ListPair = (seq<Chunk>, seq<Chunk>)

  function Gathered(bm25: Result<seq<Chunk>, Error>, dense: Result<seq<Chunk>, Error>, lexicalFirst: bool)
    : Result<ListPair, Error>
  {
    if bm25.Failure? && (dense.Success? || lexicalFirst) then Failure(bm25.error)
    else if dense.Failure? then Failure(dense.error)
    else Success((bm25.value, dense.value))
  }

  function Lists(w: World, i: nat, query: string, recall: nat): Result<ListPair, Error> {
    if !w.embeds(i, query) then Failure(EmbeddingError)
    else Gathered(Bm25Found(w.bm25(i, query, recall)), DenseFound(w.dense(i, query, recall)), w.lexicalFirst(i))
  }

  function Tried(w: World, cfg: Config, query: string, history: seq<Turn>, i: nat, current: string, recall: nat)
    : Result<Attempt, Error>
  {
    var k := if recall == 0 then cfg.recall else recall;
    match Lists(w, i, current, k)
    case Failure(e) => Failure(e)
    case Success((bm25, dense)) =>
      var candidates := Cut(bm25, dense, cfg.rrfK, k);
      match Reranked(current, candidates, cfg.topK, cfg.topK, w.backend(i))
      case Failure(e) => Failure(e)
      case Success(reranked) =>
        match Generated(query, reranked, history, w.count, cfg.budgets, w.fmt, w.model(i))
        case Failure(e) => Failure(e)
        case Success((answer, used)) =>
          match CheckGroundedness(answer, used, w.critic(i), w.parse)
          case Failure(e) => Failure(e)
          case Success(verdict) =>
            Success(Attempt(current, recall, bm25, dense, candidates, reranked, answer, used, verdict))
  }

  /** The candidates of an attempt. */
  method HybridRetrieve(w: World, cfg: Config, i: nat, query: string, topK: nat)
    returns (r: Result<seq<Chunk>, Error>)
    ensures var k := if topK == 0 then cfg.recall else topK;
            match Lists(w, i, query, k)
            case Failure(e) => r == Failure(e)
            case Success((bm25, dense)) => r == Success(Cut(bm25, dense, cfg.rrfK, k))
  {
    var k := if topK == 0 then cfg.recall else topK;
    if !w.embeds(i, query) {
      return Failure(EmbeddingError);
    }
    var bm25 := Bm25Search(w.bm25(i, query, k));
    var dense := DenseSearch(w.dense(i, query, k));
    var lists := Gathered(bm25, dense, w.lexicalFirst(i));
    if lists.Failure? {
      return Failure(lists.error);
    }
    var fused := RrfFuse(lists.value.0, lists.value.1, cfg.rrfK);
    return Success(if k < |fused| then fused[..k] else fused);
  }

  /** The query after a failed check; a claim that is no string makes the join raise. */
  function NextQuery(query: string, current: string, claims: Claims): Result<string, Error> {
    match claims
    case Absent => Success(current)
    case Items(items) =>
      Success(if items == [] then current else query + " -- specifically regarding: " + Join("; ", items))
    case Mixed => Failure(UncaughtError)
    case Unsized => Success(current)
  }

  function NextRecall(recall: nat): nat {
    if recall * 2 < MAX_RECALL then recall * 2 else MAX_RECALL
  }

  // ---- The loop ----

  /** How the loop ends. NotRun: its bound is negative. */
  datatype Ending = Passed | Exhausted | NotRun | Raised(error: Error)

  /** What attempt `i` gives for a query and a recall. */
  type Attempter = (nat, string, nat) -> Result<Attempt, Error>

  /** The attempts from the `i`-th on that got a verdict, and the end. */
  function Run(t: Attempter, maxRetries: int, query: string, i: nat, current: string, recall: nat)
    : (r: (seq<Attempt>, Ending))
    decreases maxRetries + 1 - i
  {
    if i > maxRetries then ([], NotRun)
    else
      match t(i, current, recall)
      case Failure(e) => ([], Raised(e))
      case Success(a) =>
        if a.verdict.passed then ([a], Passed)
        else if i + 1 > maxRetries then ([a], Exhausted)
        else
          match NextQuery(query, current, a.verdict.claims)
          case Failure(e) => ([a], Raised(e))
          case Success(next) =>
            var rest := Run(t, maxRetries, query, i + 1, next, NextRecall(recall));
            ([a] + rest.0, rest.1)
  }

  function Attempts(w: World, cfg: Config, query: string, history: seq<Turn>): Attempter {
    (i: nat, current: string, recall: nat) => Tried(w, cfg, query, history, i, current, recall)
  }

  function Respond(attempts: seq<Attempt>, ending: Ending): Result<Response, Error> {
    var n := |attempts|;
    match ending
    case Raised(e) => Failure(e)
    case NotRun => Success(Response(NOTE, [], false, 0, 0))
    case Passed =>
      if n == 0 then Failure(UncaughtError)
      else Success(Response(attempts[n - 1].answer, attempts[n - 1].used, true, n - 1, n - 1))
    case Exhausted =>
      if n == 0 then Failure(UncaughtError)
      else Success(Response(attempts[n - 1].answer + NOTE, attempts[n - 1].used, false, n - 1, n))
  }

  function Pipeline(w: World, cfg: Config, query: string, history: seq<Turn>): Result<Response, Error> {
    var run := Run(Attempts(w, cfg, query, history), cfg.maxRetries, query, 0, query, cfg.recall);
    Respond(run.0, run.1)
  }

  /** `t` is what the services of `w` give. */
  ghost predicate Describes(t: Attempter, w: World, cfg: Config, query: string, history: seq<Turn>) {
    forall i: nat, current: string, recall: nat {:trigger Tried(w, cfg, query, history, i, current, recall)} ::
      t(i, current, recall) == Tried(w, cfg, query, history, i, current, recall)
  }

  method RunAttempt(w: World, cfg: Config, query: string, history: seq<Turn>, i: nat, current: string, recall: nat,
                    ghost t: Attempter)
    returns (r: Result<(string, seq<Chunk>, Verdict), Error>)
    requires Describes(t, w, cfg, query, history)
    ensures match t(i, current, recall)
            case Failure(e) => r == Failure(e)
            case Success(a) => r == Success((a.answer, a.used, a.verdict))
  {
    assert t(i, current, recall) == Tried(w, cfg, query, history, i, current, recall);
    var candidates := HybridRetrieve(w, cfg, i, current, recall);
    if candidates.Failure? {
      return Failure(candidates.error);
    }
    var reranked := Rerank(current, candidates.value, cfg.topK, cfg.topK, w.backend(i));
    if reranked.Failure? {
      return Failure(reranked.error);
    }
    var generated := GenerateAnswer(query, reranked.value, history, w.count, cfg.budgets, w.fmt, w.model(i));
    if generated.Failure? {
      return Failure(generated.error);
    }
    var (answer, used) := generated.value;
    var verdict := CheckGroundedness(answer, used, w.critic(i), w.parse);
    if verdict.Failure? {
      return Failure(verdict.error);
    }
    return Success((answer, used, verdict.value));
  }

  /** The whole run `all` is the attempts so far and the run from here on. */
  ghost predicate Continues(t: Attempter, maxRetries: int, query: string, attempts: seq<Attempt>,
                            all: (seq<Attempt>, Ending),
                            i: nat, current: string, recall: nat)
  {
    var rest := Run(t, maxRetries, query, i, current, recall);
    all == (attempts + rest.0, rest.1)
  }

  lemma RunStep(t: Attempter, maxRetries: int, query: string, attempts: seq<Attempt>, all: (seq<Attempt>, Ending),
                i: nat, current: string, recall: nat)
    requires i <= maxRetries && Continues(t, maxRetries, query, attempts, all, i, current, recall)
    ensures match t(i, current, recall)
            case Failure(e) => all.1 == Raised(e)
            case Success(a) =>
              var attempts' := attempts + [a];
              if a.verdict.passed then all == (attempts', Passed)
              else if i + 1 > maxRetries then all == (attempts', Exhausted)
              else
                match NextQuery(query, current, a.verdict.claims)
                case Failure(e) => all.1 == Raised(e)
                case Success(next) => Continues(t, maxRetries, query, attempts', all, i + 1, next, NextRecall(recall))
  {
    var r := t(i, current, recall);
    if r.Success? && !r.value.verdict.passed && i + 1 <= maxRetries {
      var next := NextQuery(query, current, r.value.verdict.claims);
      if next.Success? {
        var rest := Run(t, maxRetries, query, i + 1, next.value, NextRecall(recall));
        assert attempts + ([r.value] + rest.0) == attempts + [r.value] + rest.0;
      }
    }
  }

  lemma EmptyFront(s: string)
    ensures "" + s == s
  {
  }

  /** The loop, against any description `t` of the services. */
  method RetryLoop(w: World, cfg: Config, query: string, history: seq<Turn>, ghost t: Attempter)
    returns (r: Result<Response, Error>)
    requires Describes(t, w, cfg, query, history)
    ensures var run := Run(t, cfg.maxRetries, query, 0, query, cfg.recall);
            r == Respond(run.0, run.1)
  {
    var retryCount, criticCorrections := 0, 0;
    var currentQuery, recallK := query, cfg.recall;
    var answer: string, chunksUsed: seq<Chunk>, verdict := "", [], Verdict(false, Items([]));
    ghost var attempts: seq<Attempt>, ending := [], NotRun;
    ghost var all := Run(t, cfg.maxRetries, query, 0, query, cfg.recall);
    assert [] + all.0 == all.0;
    while retryCount <= cfg.maxRetries
      invariant retryCount == criticCorrections == |attempts| && ending == NotRun
      invariant attempts == [] ==> answer == "" && chunksUsed == []
      invariant attempts != [] ==> retryCount <= cfg.maxRetries
      invariant !verdict.passed
      invariant Continues(t, cfg.maxRetries, query, attempts, all, retryCount, currentQuery, recallK)
      decreases cfg.maxRetries - retryCount
    {
      RunStep(t, cfg.maxRetries, query, attempts, all, retryCount, currentQuery, recallK);
      var result := RunAttempt(w, cfg, query, history, retryCount, currentQuery, recallK, t);
      if result.Failure? {
        return Failure(result.error);
      }
      answer, chunksUsed, verdict := result.value.0, result.value.1, result.value.2;
      attempts := attempts + [t(retryCount, currentQuery, recallK).value];
      if verdict.passed {
        ending := Passed;
        break;
      }
      retryCount := retryCount + 1;
      if retryCount > cfg.maxRetries {
        ending := Exhausted;
        break;
      }
      criticCorrections := criticCorrections + 1;
      recallK := NextRecall(recallK);
      var next := NextQuery(query, currentQuery, verdict.claims);
      if next.Failure? {
        return Failure(next.error);
      }
      currentQuery := next.value;
    }
    assert all == (attempts, ending);
    EmptyFront(NOTE);
    if !verdict.passed {
      answer := answer + NOTE;
    }
    return Success(Response(answer, chunksUsed, verdict.passed, criticCorrections, retryCount));
  }

  method RunQueryPipeline(w: World, query: string, history: seq<Turn>, cfg: Config := DEFAULTS)
    returns (r: Result<Response, Error>)
    ensures r == Pipeline(w, cfg, query, history)
  {
    r := RetryLoop(w, cfg, query, history, Attempts(w, cfg, query, history));
  }
}
