/** What a response of the query pipeline promises, however the services answer. */
module QueryContract {
  import opened Wrappers
  import opened Strings
  import opened Retrieved
  import opened Search
  import opened RrfFusion
  import opened RrfLaws
  import opened Reranker
  import opened ContextBuilder
  import opened Critic
  import opened QueryPipeline
  import OutboxModel
  import opened SearchedStores

  // ---- Recall ----

  /** The recall of attempt `i`. */
  function RecallAt(recall: nat, i: nat): nat {
    if i == 0 then recall else NextRecall(RecallAt(recall, i - 1))
  }

  function Power2(n: nat): nat { if n == 0 then 1 else 2 * Power2(n - 1) }

  function Capped(n: nat): nat { if n < 500 then n else 500 }

  /** Attempt `i` asks for `min(recall * 2^i, 500)`, when the configured recall is at most that
      much; from the second attempt on nothing asks for more in any case. */
  lemma {:induction false} RecallDoubles(recall: nat, i: nat)
    ensures i > 0 ==> RecallAt(recall, i) <= 500
    ensures recall <= 500 ==> RecallAt(recall, i) == Capped(recall * Power2(i))
  {
    if i > 0 {
      RecallDoubles(recall, i - 1);
      assert recall * Power2(i) == 2 * (recall * Power2(i - 1));
    }
  }

  // ---- Runs ----

  /** Attempt `j` of a run: it asks the services with its own recall; unless it is the last, its
      verdict is FAIL and the next query comes from its claims. */
  predicate IsAttempt(t: Attempter, query: string, run: seq<Attempt>, i: nat, recall: nat, j: nat)
    requires j < |run|
  {
    && t(i + j, run[j].query, RecallAt(recall, j)) == Success(run[j])
    && (j + 1 < |run| ==>
          && !run[j].verdict.passed
          && NextQuery(query, run[j].query, run[j].verdict.claims) == Success(run[j + 1].query))
  }

  lemma {:induction false} RecallFromNext(recall: nat, j: nat)
    ensures RecallAt(NextRecall(recall), j) == RecallAt(recall, j + 1)
  {
    if j > 0 {
      RecallFromNext(recall, j - 1);
    }
  }

  /** Each attempt keeps the query it was given. */
  ghost predicate KeepsQuery(t: Attempter) {
    forall i: nat, current: string, recall: nat {:trigger t(i, current, recall)} ::
      t(i, current, recall).Success? ==> t(i, current, recall).value.query == current
  }

  /** The attempts of a run, from the `i`-th on: the first asks `current`, each later one what the
      claims before it give. */
  ghost predicate Chain(t: Attempter, query: string, run: seq<Attempt>, i: nat, current: string, recall: nat) {
    && (run != [] ==> run[0].query == current)
    && forall j :: 0 <= j < |run| ==> IsAttempt(t, query, run, i, recall, j)
  }

  lemma {:induction false} RunAttempts(t: Attempter, max: int, query: string, i: nat, current: string, recall: nat)
    requires KeepsQuery(t)
    ensures Chain(t, query, Run(t, max, query, i, current, recall).0, i, current, recall)
    decreases max + 1 - i
  {
    var run := Run(t, max, query, i, current, recall).0;
    if |run| > 1 {
      var next := NextQuery(query, current, run[0].verdict.claims).value;
      var rest := Run(t, max, query, i + 1, next, NextRecall(recall)).0;
      RunAttempts(t, max, query, i + 1, next, NextRecall(recall));
      forall j | 0 <= j < |run|
        ensures IsAttempt(t, query, run, i, recall, j)
      {
        if j > 0 {
          assert IsAttempt(t, query, rest, i + 1, NextRecall(recall), j - 1);
          RecallFromNext(recall, j - 1);
        }
      }
    }
  }

  lemma {:induction false} RunEnds(t: Attempter, max: int, query: string, i: nat, current: string, recall: nat)
    requires i <= max
    ensures var (run, ending) := Run(t, max, query, i, current, recall);
            && i + |run| <= max + 1
            && ending != NotRun
            && (ending == Passed ==> run != [] && run[|run| - 1].verdict.passed)
            && (ending == Exhausted ==> i + |run| == max + 1 && run != [] && !run[|run| - 1].verdict.passed)
    decreases max + 1 - i
  {
    var (run, ending) := Run(t, max, query, i, current, recall);
    if |run| > 1 {
      RunEnds(t, max, query, i + 1, NextQuery(query, current, run[0].verdict.claims).value, NextRecall(recall));
    }
  }

  // ---- Responses ----

  /** What a response says about the attempts it comes from: `a` is the last. */
  ghost predicate Answers(cfg: Config, run: seq<Attempt>, r: Response) {
    && 0 < |run| <= cfg.maxRetries + 1
    && var a := run[|run| - 1];
       && r.sources == a.used
       && r.passed == a.verdict.passed
       && r.answer == (if r.passed then a.answer else a.answer + NOTE)
       && r.criticCorrections == |run| - 1
       && (r.passed ==> r.retryCount == r.criticCorrections)
       && (!r.passed ==> r.retryCount == cfg.maxRetries + 1 && r.criticCorrections == cfg.maxRetries)
  }

  lemma RunContract(t: Attempter, cfg: Config, query: string) returns (run: seq<Attempt>)
    requires cfg.maxRetries >= 0 && KeepsQuery(t)
    ensures run == Run(t, cfg.maxRetries, query, 0, query, cfg.recall).0
    ensures |run| <= cfg.maxRetries + 1 && Chain(t, query, run, 0, query, cfg.recall)
    ensures var r := Respond(run, Run(t, cfg.maxRetries, query, 0, query, cfg.recall).1);
            r.Success? ==> Answers(cfg, run, r.value)
  {
    run := Run(t, cfg.maxRetries, query, 0, query, cfg.recall).0;
    RunAttempts(t, cfg.maxRetries, query, 0, query, cfg.recall);
    RunEnds(t, cfg.maxRetries, query, 0, query, cfg.recall);
  }

  /** The attempts of the pipeline that got a verdict. */
  function Attempted(w: World, cfg: Config, query: string, history: seq<Turn>): seq<Attempt> {
    Run(Attempts(w, cfg, query, history), cfg.maxRetries, query, 0, query, cfg.recall).0
  }

  /** With at least one attempt allowed, a response comes from at most `maxRetries + 1` attempts,
      each asking the services with the doubled recall and the query the claims before it gave;
      it is the last one's answer and sources, with the note exactly on FAIL, which takes every
      retry. */
  lemma RetryContract(w: World, cfg: Config, query: string, history: seq<Turn>)
    requires cfg.maxRetries >= 0
    ensures |Attempted(w, cfg, query, history)| <= cfg.maxRetries + 1
    ensures Chain(Attempts(w, cfg, query, history), query, Attempted(w, cfg, query, history), 0, query, cfg.recall)
    ensures Pipeline(w, cfg, query, history).Success? ==>
              Answers(cfg, Attempted(w, cfg, query, history), Pipeline(w, cfg, query, history).value)
  {
    AttemptsKeepQuery(w, cfg, query, history);
    var run := RunContract(Attempts(w, cfg, query, history), cfg, query);
  }

  lemma AttemptsKeepQuery(w: World, cfg: Config, query: string, history: seq<Turn>)
    ensures KeepsQuery(Attempts(w, cfg, query, history))
  {
    var t := Attempts(w, cfg, query, history);
    forall i: nat, current: string, recall: nat | t(i, current, recall).Success?
      ensures t(i, current, recall).value.query == current
    {
      assert t(i, current, recall) == Tried(w, cfg, query, history, i, current, recall);
    }
  }

  /** What an attempt that got its verdict went through. */
  lemma TriedStages(w: World, cfg: Config, query: string, history: seq<Turn>, i: nat, current: string, recall: nat,
                    a: Attempt)
    requires Tried(w, cfg, query, history, i, current, recall) == Success(a)
    ensures var k := if recall == 0 then cfg.recall else recall;
            && Bm25Found(w.bm25(i, current, k)) == Success(a.bm25)
            && DenseFound(w.dense(i, current, k)) == Success(a.dense)
            && a.candidates == Cut(a.bm25, a.dense, cfg.rrfK, k)
            && Reranked(current, a.candidates, cfg.topK, cfg.topK, w.backend(i)) == Success(a.reranked)
            && a.used == ContextUsed(a.reranked, w.count, cfg.budgets)
            && CheckGroundedness(a.answer, a.used, w.critic(i), w.parse) == Success(a.verdict)
  {
  }

  /** The attempt a response answers from, the last of the run. */
  lemma LastOf(t: Attempter, cfg: Config, query: string, r: Response) returns (n: nat, a: Attempt)
    requires cfg.maxRetries >= 0 && KeepsQuery(t)
    requires var run := Run(t, cfg.maxRetries, query, 0, query, cfg.recall); Respond(run.0, run.1) == Success(r)
    ensures var run := Run(t, cfg.maxRetries, query, 0, query, cfg.recall).0;
            Answers(cfg, run, r) && n + 1 == |run| && a == run[n]
    ensures t(n, a.query, RecallAt(cfg.recall, n)) == Success(a)
  {
    var run := RunContract(t, cfg, query);
    n := |run| - 1;
    a := run[n];
    assert IsAttempt(t, query, run, 0, cfg.recall, n);
  }

  lemma TriedPass(w: World, cfg: Config, query: string, history: seq<Turn>, i: nat, current: string, recall: nat,
                  a: Attempt)
    requires Tried(w, cfg, query, history, i, current, recall) == Success(a) && a.verdict.passed
    ensures exists raw, claims ::
              && w.critic(i)(CriticMessage(a.answer, a.used)) == Some(raw)
              && w.parse(StripJsonFences(raw)) == Object(Pass, claims) && claims != Unsized
  {
    TriedStages(w, cfg, query, history, i, current, recall, a);
    CheckedPass(a.answer, a.used, w.critic(i), w.parse, a.verdict);
  }

  lemma CheckedPass(answer: string, used: seq<Chunk>, model: Model, parse: Parser, v: Verdict)
    requires CheckGroundedness(answer, used, model, parse) == Success(v) && v.passed
    ensures exists raw, claims ::
              && model(CriticMessage(answer, used)) == Some(raw)
              && parse(StripJsonFences(raw)) == Object(Pass, claims) && claims != Unsized
  {
    assert CheckGroundedness(answer, used, model, parse) == Success(Verdict(true, v.claims));
    PassIffParsed(answer, used, model, parse);
  }

  /** A PASS of the attempt was parsed from the critic's reply about its answer and its sources. */
  ghost predicate Grounded(w: World, i: nat, a: Attempt) {
    a.verdict.passed ==> exists raw, claims ::
      && w.critic(i)(CriticMessage(a.answer, a.used)) == Some(raw)
      && w.parse(StripJsonFences(raw)) == Object(Pass, claims) && claims != Unsized
  }

  lemma AttemptsGrounded(w: World, cfg: Config, query: string, history: seq<Turn>)
    ensures var t := Attempts(w, cfg, query, history);
            forall i: nat, current: string, recall: nat {:trigger t(i, current, recall)} ::
              t(i, current, recall).Success? ==> Grounded(w, i, t(i, current, recall).value)
  {
    var t := Attempts(w, cfg, query, history);
    forall i: nat, current: string, recall: nat | t(i, current, recall).Success?
      ensures Grounded(w, i, t(i, current, recall).value)
    {
      var a := t(i, current, recall).value;
      if a.verdict.passed {
        TriedPass(w, cfg, query, history, i, current, recall, a);
      }
    }
  }

  lemma PassOf(t: Attempter, w: World, cfg: Config, query: string, r: Response)
    requires cfg.maxRetries >= 0 && KeepsQuery(t) && r.passed
    requires forall i: nat, current: string, recall: nat {:trigger t(i, current, recall)} ::
               t(i, current, recall).Success? ==> Grounded(w, i, t(i, current, recall).value)
    requires var run := Run(t, cfg.maxRetries, query, 0, query, cfg.recall); Respond(run.0, run.1) == Success(r)
    ensures exists raw, claims ::
              && w.critic(r.retryCount)(CriticMessage(r.answer, r.sources)) == Some(raw)
              && w.parse(StripJsonFences(raw)) == Object(Pass, claims) && claims != Unsized
  {
    var n, a := LastOf(t, cfg, query, r);
    assert Grounded(w, n, a);
  }

  /** PASS is never made up: on the very answer and sources of the response, the critic of the last
      attempt replied with an object that parsed to PASS. */
  lemma PassWasParsed(w: World, cfg: Config, query: string, history: seq<Turn>)
    requires cfg.maxRetries >= 0 && Pipeline(w, cfg, query, history).Success?
    requires Pipeline(w, cfg, query, history).value.passed
    ensures var r := Pipeline(w, cfg, query, history).value;
            exists raw, claims ::
              && w.critic(r.retryCount)(CriticMessage(r.answer, r.sources)) == Some(raw)
              && w.parse(StripJsonFences(raw)) == Object(Pass, claims) && claims != Unsized
  {
    AttemptsKeepQuery(w, cfg, query, history);
    AttemptsGrounded(w, cfg, query, history);
    PassOf(Attempts(w, cfg, query, history), w, cfg, query, Pipeline(w, cfg, query, history).value);
  }

  /** `s` is a result of one of the lists, with its fused score and a rerank score. */
  ghost predicate ComesFrom(bm25: seq<Chunk>, dense: seq<Chunk>, k: nat, s: Chunk) {
    exists c :: (c in bm25 || c in dense) && s.rerankScore.Some?
             && s == c.(rrfScore := Some(Total(bm25, dense, RankWeights(k), c.id)), rerankScore := s.rerankScore)
  }

  lemma CandidateComesFrom(bm25: seq<Chunk>, dense: seq<Chunk>, k: nat, topK: nat, i: nat, s: Chunk)
    requires i < |Cut(bm25, dense, k, topK)| && s.rerankScore.Some?
    requires s == Cut(bm25, dense, k, topK)[i].(rerankScore := s.rerankScore)
    ensures ComesFrom(bm25, dense, k, s)
  {
    var w := RankWeights(k);
    var at := FusedAt(bm25, dense, w, i);
    var id := FusedIds(bm25, dense)[at];
    EntryHasId(bm25, dense, w, id);
    var c :| && (c in bm25 || c in dense) && c.id == id
             && Entry(bm25, dense, w, id) == c.(rrfScore := Some(Total(bm25, dense, w, id)));
    assert s == c.(rrfScore := Some(Total(bm25, dense, w, c.id)), rerankScore := s.rerankScore);
  }

  lemma RerankedComesFrom(query: string, bm25: seq<Chunk>, dense: seq<Chunk>, k: nat, cut: nat, topK: nat,
                          backend: Backend, s: Chunk)
    requires Reranked(query, Cut(bm25, dense, k, cut), topK, topK, backend).Success?
    requires s in Reranked(query, Cut(bm25, dense, k, cut), topK, topK, backend).value
    ensures ComesFrom(bm25, dense, k, s)
  {
    var candidates := Cut(bm25, dense, k, cut);
    RerankedFromCandidates(query, candidates, topK, topK, backend, s);
    var i :| 0 <= i < |candidates| && s == candidates[i].(rerankScore := s.rerankScore);
    CandidateComesFrom(bm25, dense, k, cut, i, s);
  }

  lemma UsedWasRanked(chunks: seq<Chunk>, count: Counter, budgets: Budgets, s: Chunk)
    requires s in ContextUsed(chunks, count, budgets)
    ensures s in chunks
  {
    PickedFrom(chunks, Taken(chunks, count, budgets.chunks), |chunks|, s);
  }

  lemma TriedSource(w: World, cfg: Config, query: string, history: seq<Turn>, i: nat, current: string, recall: nat,
                    a: Attempt, s: Chunk)
    requires Tried(w, cfg, query, history, i, current, recall) == Success(a) && s in a.used
    ensures ComesFrom(a.bm25, a.dense, cfg.rrfK, s)
  {
    TriedStages(w, cfg, query, history, i, current, recall, a);
    UsedWasRanked(a.reranked, w.count, cfg.budgets, s);
    RerankedComesFrom(current, a.bm25, a.dense, cfg.rrfK, if recall == 0 then cfg.recall else recall, cfg.topK,
                      w.backend(i), s);
  }

  /** All that the attempt showed the model comes from its two search lists. */
  ghost predicate Sourced(cfg: Config, a: Attempt) {
    forall s :: s in a.used ==> ComesFrom(a.bm25, a.dense, cfg.rrfK, s)
  }

  lemma AttemptsSourced(w: World, cfg: Config, query: string, history: seq<Turn>)
    ensures var t := Attempts(w, cfg, query, history);
            forall i: nat, current: string, recall: nat {:trigger t(i, current, recall)} ::
              t(i, current, recall).Success? ==> Sourced(cfg, t(i, current, recall).value)
  {
    var t := Attempts(w, cfg, query, history);
    forall i: nat, current: string, recall: nat | t(i, current, recall).Success?
      ensures Sourced(cfg, t(i, current, recall).value)
    {
      var a := t(i, current, recall).value;
      forall s | s in a.used
        ensures ComesFrom(a.bm25, a.dense, cfg.rrfK, s)
      {
        TriedSource(w, cfg, query, history, i, current, recall, a, s);
      }
    }
  }

  lemma SourceOf(t: Attempter, cfg: Config, query: string, run: (seq<Attempt>, Ending), r: Response)
    requires cfg.maxRetries >= 0 && KeepsQuery(t)
    requires forall i: nat, current: string, recall: nat {:trigger t(i, current, recall)} ::
               t(i, current, recall).Success? ==> Sourced(cfg, t(i, current, recall).value)
    requires run == Run(t, cfg.maxRetries, query, 0, query, cfg.recall) && Respond(run.0, run.1) == Success(r)
    ensures SourcedLast(cfg, run.0, r)
  {
    var n, a := LastOf(t, cfg, query, r);
  }

  /** The sources are those of the last attempt, and come from its lists. */
  ghost predicate SourcedLast(cfg: Config, run: seq<Attempt>, r: Response) {
    run != [] && r.sources == run[|run| - 1].used && Sourced(cfg, run[|run| - 1])
  }

  /** Every source of a response comes from the two search lists of the attempt that answered, the
      last of the run, through fusion, the cut, reranking and packing. */
  lemma SourcesFromFinalLists(w: World, cfg: Config, query: string, history: seq<Turn>)
    requires cfg.maxRetries >= 0 && Pipeline(w, cfg, query, history).Success?
    ensures SourcedLast(cfg, Attempted(w, cfg, query, history), Pipeline(w, cfg, query, history).value)
  {
    var t := Attempts(w, cfg, query, history);
    AttemptsKeepQuery(w, cfg, query, history);
    AttemptsSourced(w, cfg, query, history);
    SourceOf(t, cfg, query, Run(t, cfg.maxRetries, query, 0, query, cfg.recall),
             Pipeline(w, cfg, query, history).value);
  }

  lemma DistinctPrefix(s: seq<Chunk>, n: nat)
    requires n <= |s| && Distinct(Ids(s))
    ensures Distinct(Ids(s[..n]))
  {
    forall i, j | 0 <= i < j < n
      ensures Ids(s[..n])[i] != Ids(s[..n])[j]
    {
      assert Ids(s)[i] != Ids(s)[j];
    }
  }

  lemma RerankedDistinct(query: string, bm25: seq<Chunk>, dense: seq<Chunk>, k: nat, cut: nat, topK: nat,
                         backend: Backend)
    requires backend.Local? && Reranked(query, Cut(bm25, dense, k, cut), topK, topK, backend).Success?
    ensures Distinct(Ids(Reranked(query, Cut(bm25, dense, k, cut), topK, topK, backend).value))
  {
    FusedIsUnion(bm25, dense, RankWeights(k));
    var fused := Fused(bm25, dense, RankWeights(k));
    DistinctPrefix(fused, if cut < |fused| then cut else |fused|);
    var candidates := Cut(bm25, dense, k, cut);
    assert fused[..|fused|] == fused;
    if candidates != [] {
      LocalKeepsDistinct(candidates, backend.predict(query, Texts(candidates)).value, topK);
    }
  }

  lemma TriedDistinct(w: World, cfg: Config, query: string, history: seq<Turn>, i: nat, current: string,
                      recall: nat, a: Attempt)
    requires Tried(w, cfg, query, history, i, current, recall) == Success(a) && w.backend(i).Local?
    ensures Distinct(Ids(a.used))
  {
    TriedStages(w, cfg, query, history, i, current, recall, a);
    RerankedDistinct(current, a.bm25, a.dense, cfg.rrfK, if recall == 0 then cfg.recall else recall, cfg.topK,
                     w.backend(i));
    PickedDistinct(a.reranked, Taken(a.reranked, w.count, cfg.budgets.chunks), |a.reranked|);
  }

  lemma AttemptsDistinct(w: World, cfg: Config, query: string, history: seq<Turn>)
    requires forall i :: w.backend(i).Local?
    ensures var t := Attempts(w, cfg, query, history);
            forall i: nat, current: string, recall: nat {:trigger t(i, current, recall)} ::
              t(i, current, recall).Success? ==> Distinct(Ids(t(i, current, recall).value.used))
  {
    var t := Attempts(w, cfg, query, history);
    forall i: nat, current: string, recall: nat | t(i, current, recall).Success?
      ensures Distinct(Ids(t(i, current, recall).value.used))
    {
      TriedDistinct(w, cfg, query, history, i, current, recall, t(i, current, recall).value);
    }
  }

  lemma DistinctOf(t: Attempter, cfg: Config, query: string, r: Response)
    requires cfg.maxRetries >= 0 && KeepsQuery(t)
    requires forall i: nat, current: string, recall: nat {:trigger t(i, current, recall)} ::
               t(i, current, recall).Success? ==> Distinct(Ids(t(i, current, recall).value.used))
    requires var run := Run(t, cfg.maxRetries, query, 0, query, cfg.recall); Respond(run.0, run.1) == Success(r)
    ensures Distinct(Ids(r.sources))
  {
    var n, a := LastOf(t, cfg, query, r);
  }

  /** With the local reranker no chunk is a source twice, even if the search lists repeat it. */
  lemma SourcesDistinct(w: World, cfg: Config, query: string, history: seq<Turn>)
    requires cfg.maxRetries >= 0 && Pipeline(w, cfg, query, history).Success?
    requires forall i :: w.backend(i).Local?
    ensures Distinct(Ids(Pipeline(w, cfg, query, history).value.sources))
  {
    AttemptsKeepQuery(w, cfg, query, history);
    AttemptsDistinct(w, cfg, query, history);
    DistinctOf(Attempts(w, cfg, query, history), cfg, query, Pipeline(w, cfg, query, history).value);
  }

  // ---- Errors ----

  /** After the failed attempts of `run`, the next one asks `q`. */
  predicate Asks(query: string, run: seq<Attempt>, current: string, q: string) {
    if run == [] then q == current
    else
      var last := run[|run| - 1];
      !last.verdict.passed && NextQuery(query, last.query, last.verdict.claims) == Success(q)
  }

  /** The error of the attempt after `run`, or of joining the claims of the last one of it; in both
      cases a retry is left for it. */
  ghost predicate Breaks(t: Attempter, max: int, query: string, run: seq<Attempt>, i: nat, current: string,
                         recall: nat, e: Error) {
    && Chain(t, query, run, i, current, recall)
    && i + |run| <= max
    && (|| (exists q :: Asks(query, run, current, q) && t(i + |run|, q, RecallAt(recall, |run|)) == Failure(e))
        || (run != [] && !run[|run| - 1].verdict.passed
            && NextQuery(query, run[|run| - 1].query, run[|run| - 1].verdict.claims) == Failure(e)))
  }

  lemma ChainTail(t: Attempter, query: string, run: seq<Attempt>, i: nat, current: string, recall: nat, next: string)
    requires |run| > 0 && Chain(t, query, run, i, current, recall)
    requires |run| > 1 ==> next == run[1].query
    ensures Chain(t, query, run[1..], i + 1, next, NextRecall(recall))
  {
    var rest := run[1..];
    forall j {:trigger rest[j]} | 0 <= j < |rest|
      ensures IsAttempt(t, query, rest, i + 1, NextRecall(recall), j)
    {
      assert IsAttempt(t, query, run, i, recall, j + 1);
      RecallFromNext(recall, j);
    }
  }

  lemma ChainCons(t: Attempter, query: string, a: Attempt, rest: seq<Attempt>, i: nat, current: string, recall: nat,
                  next: string)
    requires t(i, current, recall) == Success(a) && a.query == current && !a.verdict.passed
    requires NextQuery(query, current, a.verdict.claims) == Success(next)
    requires Chain(t, query, rest, i + 1, next, NextRecall(recall))
    ensures Chain(t, query, [a] + rest, i, current, recall)
  {
    var run := [a] + rest;
    forall j | 0 <= j < |run|
      ensures IsAttempt(t, query, run, i, recall, j)
    {
      if j > 0 {
        assert IsAttempt(t, query, rest, i + 1, NextRecall(recall), j - 1);
        RecallFromNext(recall, j - 1);
      }
    }
  }

  lemma BreaksCons(t: Attempter, max: int, query: string, a: Attempt, rest: seq<Attempt>, i: nat, current: string,
                   recall: nat, next: string, e: Error)
    requires t(i, current, recall) == Success(a) && a.query == current && !a.verdict.passed
    requires NextQuery(query, current, a.verdict.claims) == Success(next)
    requires Breaks(t, max, query, rest, i + 1, next, NextRecall(recall), e)
    ensures Breaks(t, max, query, [a] + rest, i, current, recall, e)
  {
    ChainCons(t, query, a, rest, i, current, recall, next);
    RecallFromNext(recall, |rest|);
    var run := [a] + rest;
    if q :| Asks(query, rest, next, q) && t(i + 1 + |rest|, q, RecallAt(NextRecall(recall), |rest|)) == Failure(e) {
      assert Asks(query, run, current, q) && t(i + |run|, q, RecallAt(recall, |run|)) == Failure(e);
    }
  }

  lemma {:induction false} RaisedBreaks(t: Attempter, max: int, query: string, i: nat, current: string, recall: nat,
                                        e: Error)
    returns (run: seq<Attempt>)
    requires Run(t, max, query, i, current, recall).1 == Raised(e) && KeepsQuery(t)
    ensures Breaks(t, max, query, run, i, current, recall, e)
    decreases max + 1 - i
  {
    run := [];
    if t(i, current, recall).Success? {
      var a := t(i, current, recall).value;
      var next := NextQuery(query, current, a.verdict.claims);
      if next.Success? {
        var rest := RaisedBreaks(t, max, query, i + 1, next.value, NextRecall(recall), e);
        run := [a] + rest;
        BreaksCons(t, max, query, a, rest, i, current, recall, next.value, e);
      } else {
        run := [a];
      }
    } else {
      assert Asks(query, run, current, current) && t(i + |run|, current, RecallAt(recall, |run|)) == Failure(e);
    }
  }

  lemma BreaksTail(t: Attempter, max: int, query: string, run: seq<Attempt>, i: nat, current: string, recall: nat,
                   e: Error)
    returns (next: string)
    requires Breaks(t, max, query, run, i, current, recall, e)
    requires |run| > 1 || (|run| == 1 && NextQuery(query, run[0].query, run[0].verdict.claims).Success?)
    ensures !run[0].verdict.passed && NextQuery(query, current, run[0].verdict.claims) == Success(next)
    ensures Breaks(t, max, query, run[1..], i + 1, next, NextRecall(recall), e)
  {
    assert IsAttempt(t, query, run, i, recall, 0);
    next := NextQuery(query, run[0].query, run[0].verdict.claims).value;
    ChainTail(t, query, run, i, current, recall, next);
    RecallFromNext(recall, |run| - 1);
    var rest := run[1..];
    if q :| Asks(query, run, current, q) && t(i + |run|, q, RecallAt(recall, |run|)) == Failure(e) {
      assert Asks(query, rest, next, q) && t(i + 1 + |rest|, q, RecallAt(NextRecall(recall), |rest|)) == Failure(e);
    }
  }

  lemma {:induction false} BreaksRaise(t: Attempter, max: int, query: string, run: seq<Attempt>, i: nat,
                                       current: string, recall: nat, e: Error)
    requires Breaks(t, max, query, run, i, current, recall, e)
    ensures Run(t, max, query, i, current, recall).1 == Raised(e)
    decreases |run|
  {
    if run != [] {
      assert IsAttempt(t, query, run, i, recall, 0);
      if |run| > 1 || NextQuery(query, run[0].query, run[0].verdict.claims).Success? {
        var next := BreaksTail(t, max, query, run, i, current, recall, e);
        BreaksRaise(t, max, query, run[1..], i + 1, next, NextRecall(recall), e);
      }
    }
  }

  /** Exactly when the pipeline fails, and with which error: iff, after a run of failed attempts with
      a retry left, the next attempt raises it, or the last claims cannot be joined. No error is
      swallowed, and none made up. */
  lemma FailsIff(w: World, cfg: Config, query: string, history: seq<Turn>, e: Error)
    requires cfg.maxRetries >= 0
    ensures Pipeline(w, cfg, query, history) == Failure(e)
       <==> exists run :: Breaks(Attempts(w, cfg, query, history), cfg.maxRetries, query, run, 0, query, cfg.recall, e)
  {
    var t := Attempts(w, cfg, query, history);
    AttemptsKeepQuery(w, cfg, query, history);
    RunFailsIff(t, cfg, query, e);
  }

  lemma RunFailsIff(t: Attempter, cfg: Config, query: string, e: Error)
    requires cfg.maxRetries >= 0 && KeepsQuery(t)
    ensures var run := Run(t, cfg.maxRetries, query, 0, query, cfg.recall);
            Respond(run.0, run.1) == Failure(e)
            <==> exists run :: Breaks(t, cfg.maxRetries, query, run, 0, query, cfg.recall, e)
  {
    RunEnds(t, cfg.maxRetries, query, 0, query, cfg.recall);
    if Run(t, cfg.maxRetries, query, 0, query, cfg.recall).1 == Raised(e) {
      var run := RaisedBreaks(t, cfg.maxRetries, query, 0, query, cfg.recall, e);
    }
    if run :| Breaks(t, cfg.maxRetries, query, run, 0, query, cfg.recall, e) {
      BreaksRaise(t, cfg.maxRetries, query, run, 0, query, cfg.recall, e);
    }
  }

  // ---- Documents from the relay ----

  /** When an attempt's lists fail with an uncaught error, for an attempt made in a state of the outbox whose
      lexical search finds something: iff there is one name per user, a stored chunk of the user is among the hits,
      and the dense search does not fail first. */
  lemma ListsRaiseIff(w: World, i: nat, query: string, k: nat, c: OutboxModel.Config, s: OutboxModel.State,
                      digest: Digest, user: OutboxModel.UserId, naming: Naming, hits: seq<EsHit>)
    requires OutboxModel.Reachable(c, s) && HexDigest(digest, user)
    requires Finds(s, LexicalIndex(c.routing, digest, user), naming, hits)
    requires w.embeds(i, query) && w.bm25(i, query, k) == EsHits(hits)
    ensures Lists(w, i, query, k) == Failure(UncaughtError)
       <==> && c.routing == OutboxModel.PerUser && OwnChunkFound(s, user, naming, hits)
            && (w.dense(i, query, k) != QdrantRaises || w.lexicalFirst(i))
  {
    RelayedHitIff(c, s, digest, user, naming, hits);
  }

  /** One name per user would not do: a query fails with an uncaught error as soon as one of its attempts, the
      first or a later one, finds a chunk that the relay has stored for the user. */
  lemma RelayedQueryFails(w: World, cfg: Config, query: string, history: seq<Turn>, run: seq<Attempt>, q: string,
                          c: OutboxModel.Config, s: OutboxModel.State, digest: Digest, user: OutboxModel.UserId,
                          naming: Naming, hits: seq<EsHit>)
    requires OutboxModel.Reachable(c, s) && HexDigest(digest, user) && c.routing == OutboxModel.PerUser
    requires Finds(s, LexicalIndex(c.routing, digest, user), naming, hits) && OwnChunkFound(s, user, naming, hits)
    requires Chain(Attempts(w, cfg, query, history), query, run, 0, query, cfg.recall)
    requires |run| <= cfg.maxRetries && Asks(query, run, query, q)
    requires var k := RecallAt(cfg.recall, |run|);
             var n := |run|;
             && w.embeds(n, q) && w.bm25(n, q, k) == EsHits(hits)
             && (w.dense(n, q, k) != QdrantRaises || w.lexicalFirst(n))
    ensures Pipeline(w, cfg, query, history) == Failure(UncaughtError)
  {
    ListsRaiseIff(w, |run|, q, RecallAt(cfg.recall, |run|), c, s, digest, user, naming, hits);
    NoRecall(cfg.recall, |run|);
    ListsErrorFails(w, cfg, query, history, run, q, UncaughtError);
  }

  /** Recall 0 stays 0 and stands for the configured one, which is 0 too. */
  lemma {:induction false} NoRecall(recall: nat, n: nat)
    ensures RecallAt(recall, n) == 0 ==> recall == 0
  {
    if n > 0 {
      NoRecall(recall, n - 1);
    }
  }

  /** The retrieval error of any attempt is the pipeline's. */
  lemma ListsErrorFails(w: World, cfg: Config, query: string, history: seq<Turn>, run: seq<Attempt>, q: string,
                        e: Error)
    requires Chain(Attempts(w, cfg, query, history), query, run, 0, query, cfg.recall)
    requires |run| <= cfg.maxRetries && Asks(query, run, query, q)
    requires RecallAt(cfg.recall, |run|) == 0 ==> cfg.recall == 0
    requires Lists(w, |run|, q, RecallAt(cfg.recall, |run|)) == Failure(e)
    ensures Pipeline(w, cfg, query, history) == Failure(e)
  {
    var t := Attempts(w, cfg, query, history);
    assert Tried(w, cfg, query, history, |run|, q, RecallAt(cfg.recall, |run|)) == Failure(e);
    assert t(|run|, q, RecallAt(cfg.recall, |run|)) == Failure(e);
    assert Breaks(t, cfg.maxRetries, query, run, 0, query, cfg.recall, e);
    FailsIff(w, cfg, query, history, e);
  }

  // ---- A dense search that raises ----

  /** The error of the first attempt when its dense search raises. */
  function FirstError(w: World, query: string, k: nat): Error {
    if !w.embeds(0, query) then EmbeddingError
    else
      var bm25 := Bm25Found(w.bm25(0, query, k));
      if bm25.Failure? && w.lexicalFirst(0) then bm25.error else RetrievalError
  }

  /** If the dense search of the first attempt raises, which as coded every one does, the query fails, whatever all
      other services answer: with the error of the embedding, or of the lexical search if that fails
      first, or else a retrieval error. */
  lemma DenseRaisesFails(w: World, cfg: Config, query: string, history: seq<Turn>)
    requires cfg.maxRetries >= 0 && w.dense(0, query, cfg.recall).QdrantRaises?
    ensures Pipeline(w, cfg, query, history) == Failure(FirstError(w, query, cfg.recall))
    ensures FirstError(w, query, cfg.recall) in [EmbeddingError, RetrievalError, UncaughtError]
  {
    assert RecallAt(cfg.recall, 0) == cfg.recall;
    LexicalErrors(w.bm25(0, query, cfg.recall));
    assert Lists(w, 0, query, cfg.recall) == Failure(FirstError(w, query, cfg.recall));
    ListsErrorFails(w, cfg, query, history, [], query, FirstError(w, query, cfg.recall));
  }

  lemma LexicalErrors(reply: EsReply)
    ensures Bm25Found(reply).Failure? ==> Bm25Found(reply).error in [RetrievalError, UncaughtError]
  {
    Bm25Iff(reply);
    if reply.EsHits? {
      FromHitsIff(reply.hits, |reply.hits|);
    }
  }
}
