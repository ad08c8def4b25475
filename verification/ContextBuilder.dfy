/**
The prompt: the latest turns that fit their budget, the best-ranked excerpts that fit theirs, and
the query. Token counts come from a counter that promises nothing; a budget is a sum of counts of
single lines or excerpts.
*/
module ContextBuilder {
  import opened Wrappers
  import opened Strings
  import opened Format
  import opened Retrieved

  type Counter = string -> nat

  datatype Budgets = Budgets(history: nat, chunks: nat)

  const DEFAULT := Budgets(800, 2000)

  // ---- Text ----

  function Upper(c: char): char { if 'a' <= c <= 'z' then c - 'a' + 'A' else c }

  function Lower(c: char): char { if 'A' <= c <= 'Z' then c - 'A' + 'a' else c }

  function Capitalize(s: string): string {
    if s == "" then "" else [Upper(s[0])] + AllLower(s[1..])
  }

  function AllLower(s: string): string {
    if s == "" then "" else [Lower(s[0])] + AllLower(s[1..])
  }

  function Line(t: Turn): string {
    Capitalize(t.role) + ": " + t.content + "\n"
  }

  function Marker(i: nat): string {
    "[" + Decimal(i) + "]"
  }

  /** The excerpt of the chunk ranked `i`, counting from 1. */
  function Excerpt(i: nat, c: Chunk): string {
    Marker(i) + " (source: " + (match c.filename case Some(f) => f case None => "None") + ")\n" + c.text + "\n"
  }

  function Excerpts(chunks: seq<Chunk>): seq<string> {
    seq(|chunks|, i requires 0 <= i < |chunks| => Excerpt(i + 1, chunks[i]))
  }

  function OrElse(s: string, default: string): string { if s == "" then default else s }

  /** The message up to its query. */
  function Prompt(historyText: string, chunksText: string): string {
    "### Conversation so far:\n" + OrElse(historyText, "(no prior turns)") + "\n\n"
    + "### Source excerpts:\n" + OrElse(chunksText, "(no relevant sources found)") + "\n\n"
    + "### Question:\n"
  }

  function Template(historyText: string, chunksText: string): string {
    Prompt(historyText, chunksText) + QUERY
  }

  // ---- History ----

  function HistoryLines(history: seq<Turn>): seq<string> {
    seq(|history|, i requires 0 <= i < |history| => Line(history[i]))
  }

  function Counts(lines: seq<string>, count: Counter): seq<nat> {
    seq(|lines|, i requires 0 <= i < |lines| => count(lines[i]))
  }

  /** The lines from `from` on, in chronological order. */
  function TextFrom(lines: seq<string>, from: nat): string
    requires from <= |lines|
    decreases |lines| - from
  {
    if from == |lines| then "" else lines[from] + TextFrom(lines, from + 1)
  }

  function CostFrom(costs: seq<nat>, from: nat): nat
    requires from <= |costs|
    decreases |costs| - from
  {
    if from == |costs| then 0 else costs[from] + CostFrom(costs, from + 1)
  }

  /** Where the kept turns start, when those from `n` on are kept already. */
  function StartFrom(costs: seq<nat>, budget: nat, n: nat): (r: nat)
    requires n <= |costs|
    ensures r <= n
  {
    if n == 0 || CostFrom(costs, n - 1) > budget then n else StartFrom(costs, budget, n - 1)
  }

  lemma {:induction false} CostFromGrows(costs: seq<nat>, i: nat, j: nat)
    requires i <= j <= |costs|
    ensures CostFrom(costs, i) >= CostFrom(costs, j)
    decreases j - i
  {
    if i < j {
      CostFromGrows(costs, i + 1, j);
    }
  }

  lemma {:induction false} StartFromIff(costs: seq<nat>, budget: nat, n: nat, j: nat)
    requires j <= n <= |costs| && CostFrom(costs, n) <= budget
    ensures CostFrom(costs, j) <= budget <==> StartFrom(costs, budget, n) <= j
  {
    if n > 0 && CostFrom(costs, n - 1) <= budget {
      if j < n {
        StartFromIff(costs, budget, n - 1, j);
      }
    } else if j < n {
      CostFromGrows(costs, j, n - 1);
    }
  }

  function HistoryStart(history: seq<Turn>, count: Counter, budget: nat): (r: nat)
    ensures r <= |history|
  {
    StartFrom(Counts(HistoryLines(history), count), budget, |history|)
  }

  function HistoryText(history: seq<Turn>, count: Counter, budget: nat): string {
    TextFrom(HistoryLines(history), HistoryStart(history, count, budget))
  }

  /** The kept turns are the longest suffix of the history that fits: a suffix fits exactly when
      it starts no earlier. */
  lemma LongestHistory(history: seq<Turn>, count: Counter, budget: nat, j: nat)
    requires j <= |history|
    ensures CostFrom(Counts(HistoryLines(history), count), j) <= budget
       <==> HistoryStart(history, count, budget) <= j
  {
    StartFromIff(Counts(HistoryLines(history), count), budget, |history|, j);
  }

  method BuildHistory(history: seq<Turn>, count: Counter, budget: nat) returns (text: string)
    ensures text == HistoryText(history, count, budget)
  {
    text := "";
    var used := 0;
    var n := |history|;
    ghost var lines := HistoryLines(history);
    ghost var costs := Counts(lines, count);
    while n > 0
      invariant 0 <= n <= |history|
      invariant text == TextFrom(lines, n)
      invariant used == CostFrom(costs, n)
      invariant HistoryStart(history, count, budget) == StartFrom(costs, budget, n)
    {
      var line, cost := LineAndCost(history, count, n - 1, lines, costs);
      if used + cost > budget {
        break;
      }
      text := line + text;
      used := used + cost;
      n := n - 1;
    }
  }

  method LineAndCost(history: seq<Turn>, count: Counter, i: nat, ghost lines: seq<string>, ghost costs: seq<nat>)
    returns (line: string, cost: nat)
    requires i < |history| && lines == HistoryLines(history) && costs == Counts(lines, count)
    ensures line == lines[i] && cost == costs[i]
  {
    line := Line(history[i]);
    cost := count(line);
  }

  // ---- Excerpts ----

  function Costs(chunks: seq<Chunk>, count: Counter): seq<nat> {
    seq(|chunks|, i requires 0 <= i < |chunks| => count(Excerpt(i + 1, chunks[i])))
  }

  /** What the picked ones among the first `n` cost. */
  function Cost(costs: seq<nat>, pick: seq<bool>, n: nat): nat
    requires n <= |pick| && n <= |costs|
  {
    if n == 0 then 0 else Cost(costs, pick, n - 1) + if pick[n - 1] then costs[n - 1] else 0
  }

  function Picked<T>(xs: seq<T>, pick: seq<bool>, n: nat): seq<T>
    requires n <= |pick| && n <= |xs|
  {
    if n == 0 then []
    else if pick[n - 1] then Picked(xs, pick, n - 1) + [xs[n - 1]]
    else Picked(xs, pick, n - 1)
  }

  /** How many of the first `n` are picked. */
  function Count(pick: seq<bool>, n: nat): nat
    requires n <= |pick|
  {
    if n == 0 then 0 else if pick[n - 1] then Count(pick, n - 1) + 1 else Count(pick, n - 1)
  }

  /** Which of the first `n` excerpts the loop takes: each one that still fits. */
  function Greedy(costs: seq<nat>, budget: nat, n: nat): (pick: seq<bool>)
    requires n <= |costs|
    ensures |pick| == n
  {
    if n == 0 then []
    else
      var before := Greedy(costs, budget, n - 1);
      before + [Cost(costs, before, n - 1) + costs[n - 1] <= budget]
  }

  function Taken(chunks: seq<Chunk>, count: Counter, budget: nat): (pick: seq<bool>)
    ensures |pick| == |chunks|
  {
    Greedy(Costs(chunks, count), budget, |chunks|)
  }

  lemma {:induction false} CostPrefix(costs: seq<nat>, p: seq<bool>, q: seq<bool>, n: nat)
    requires n <= |p| && n <= |q| && n <= |costs| && forall i :: 0 <= i < n ==> p[i] == q[i]
    ensures Cost(costs, p, n) == Cost(costs, q, n)
  {
    if n > 0 {
      CostPrefix(costs, p, q, n - 1);
    }
  }

  lemma {:induction false} CostGrows(costs: seq<nat>, p: seq<bool>, m: nat, n: nat)
    requires m <= n <= |p| && n <= |costs|
    ensures Cost(costs, p, m) <= Cost(costs, p, n)
    decreases n
  {
    if m < n {
      CostGrows(costs, p, m, n - 1);
    }
  }

  lemma {:induction false} PickedPrefix<T>(xs: seq<T>, p: seq<bool>, q: seq<bool>, n: nat)
    requires n <= |p| && n <= |q| && n <= |xs| && forall i :: 0 <= i < n ==> p[i] == q[i]
    ensures Picked(xs, p, n) == Picked(xs, q, n)
  {
    if n > 0 {
      PickedPrefix(xs, p, q, n - 1);
    }
  }

  lemma {:induction false} GreedyPrefix(costs: seq<nat>, budget: nat, n: nat, i: nat)
    requires i < n <= |costs|
    ensures var g := Greedy(costs, budget, n);
            g[i] <==> Cost(costs, g, i) + costs[i] <= budget
  {
    var g := Greedy(costs, budget, n);
    var before := Greedy(costs, budget, n - 1);
    if i < n - 1 {
      GreedyPrefix(costs, budget, n - 1, i);
    }
    CostPrefix(costs, before, g, i);
  }

  lemma {:induction false} GreedyFits(costs: seq<nat>, budget: nat, n: nat)
    requires n <= |costs|
    ensures Cost(costs, Greedy(costs, budget, n), n) <= budget
  {
    if n > 0 {
      GreedyFits(costs, budget, n - 1);
      CostPrefix(costs, Greedy(costs, budget, n - 1), Greedy(costs, budget, n), n - 1);
    }
  }

  predicate Fits(costs: seq<nat>, budget: nat, pick: seq<bool>) {
    |pick| == |costs| && Cost(costs, pick, |costs|) <= budget
  }

  /** At the first rank where they differ, `p` picks the excerpt and `q` does not. */
  ghost predicate Beats(p: seq<bool>, q: seq<bool>) {
    exists i :: 0 <= i < |p| && i < |q| && p[..i] == q[..i] && p[i] && !q[i]
  }

  ghost predicate LexGreatest(costs: seq<nat>, budget: nat, pick: seq<bool>) {
    && Fits(costs, budget, pick)
    && forall q :: Fits(costs, budget, q) && q != pick ==> Beats(pick, q)
  }

  lemma {:induction false} FirstDifference(p: seq<bool>, q: seq<bool>) returns (i: nat)
    requires |p| == |q| && p != q
    ensures i < |p| && p[..i] == q[..i] && p[i] != q[i]
  {
    if p[0] != q[0] {
      i := 0;
    } else {
      assert p == [p[0]] + p[1..] && q == [q[0]] + q[1..];
      var j := FirstDifference(p[1..], q[1..]);
      i := j + 1;
      assert p[..i] == [p[0]] + p[1..][..j] && q[..i] == [q[0]] + q[1..][..j];
    }
  }

  lemma GreedyBeats(costs: seq<nat>, budget: nat, q: seq<bool>)
    requires Fits(costs, budget, q) && q != Greedy(costs, budget, |costs|)
    ensures Beats(Greedy(costs, budget, |costs|), q)
  {
    var g := Greedy(costs, budget, |costs|);
    var i := FirstDifference(g, q);
    if q[i] {
      CostPrefix(costs, g[..i], g, i);
      CostPrefix(costs, q[..i], q, i);
      CostGrows(costs, q, i + 1, |costs|);
      GreedyPrefix(costs, budget, |costs|, i);
      assert false;
    }
  }

  lemma PrefixAt(p: seq<bool>, q: seq<bool>, n: nat, i: nat)
    requires i < n <= |p| && n <= |q| && p[..n] == q[..n]
    ensures p[i] == q[i]
  {
    assert p[..n][i] == q[..n][i];
  }

  /** The excerpts taken are the one choice that is lexicographically greatest by rank among all
      that fit the budget. */
  lemma GreedyIsLexGreatest(costs: seq<nat>, budget: nat, pick: seq<bool>)
    ensures LexGreatest(costs, budget, pick) <==> pick == Greedy(costs, budget, |costs|)
  {
    var g := Greedy(costs, budget, |costs|);
    GreedyFits(costs, budget, |costs|);
    forall q | Fits(costs, budget, q) && q != g
      ensures Beats(g, q)
    {
      GreedyBeats(costs, budget, q);
    }
    if LexGreatest(costs, budget, pick) && pick != g {
      assert Beats(pick, g);
      var i :| 0 <= i < |pick| && i < |g| && pick[..i] == g[..i] && pick[i] && !g[i];
      GreedyBeats(costs, budget, pick);
      var j :| 0 <= j < |g| && j < |pick| && g[..j] == pick[..j] && g[j] && !pick[j];
      if i < j {
        PrefixAt(g, pick, j, i);
      } else if j < i {
        PrefixAt(g, pick, i, j);
      }
      assert false;
    }
  }

  /** What is left of the budget would not have held any dropped excerpt. */
  lemma NoDroppedFits(costs: seq<nat>, budget: nat, i: nat)
    requires i < |costs| && !Greedy(costs, budget, |costs|)[i]
    ensures var used := Cost(costs, Greedy(costs, budget, |costs|), |costs|);
            used <= budget && budget - used < costs[i]
  {
    GreedyPrefix(costs, budget, |costs|, i);
    CostGrows(costs, Greedy(costs, budget, |costs|), i, |costs|);
    GreedyFits(costs, budget, |costs|);
  }

  /** The parts are concatenated with the counts the loop added up. */
  method BuildExcerpts(chunks: seq<Chunk>, count: Counter, budget: nat)
    returns (parts: seq<string>, used: seq<Chunk>)
    ensures parts == Picked(Excerpts(chunks), Taken(chunks, count, budget), |chunks|)
    ensures used == Picked(chunks, Taken(chunks, count, budget), |chunks|)
  {
    parts, used := [], [];
    var tokens := 0;
    ghost var costs := Costs(chunks, count);
    for i := 0 to |chunks|
      invariant tokens == Cost(costs, Greedy(costs, budget, i), i)
      invariant parts == Picked(Excerpts(chunks), Greedy(costs, budget, i), i)
      invariant used == Picked(chunks, Greedy(costs, budget, i), i)
    {
      ghost var before, after := Greedy(costs, budget, i), Greedy(costs, budget, i + 1);
      CostPrefix(costs, before, after, i);
      PickedPrefix(chunks, before, after, i);
      PickedPrefix(Excerpts(chunks), before, after, i);
      var excerpt := Excerpt(i + 1, chunks[i]);
      var cost := count(excerpt);
      if tokens + cost > budget {
        continue;
      }
      parts := parts + [excerpt];
      used := used + [chunks[i]];
      tokens := tokens + cost;
    }
  }

  function ChunksText(chunks: seq<Chunk>, count: Counter, budget: nat): string {
    Join("\n", Picked(Excerpts(chunks), Taken(chunks, count, budget), |chunks|))
  }

  function ContextTemplate(chunks: seq<Chunk>, history: seq<Turn>, count: Counter, budgets: Budgets): string {
    Template(HistoryText(history, count, budgets.history), ChunksText(chunks, count, budgets.chunks))
  }

  function ContextUsed(chunks: seq<Chunk>, count: Counter, budgets: Budgets): seq<Chunk> {
    Picked(chunks, Taken(chunks, count, budgets.chunks), |chunks|)
  }

  method BuildContext(chunks: seq<Chunk>, history: seq<Turn>, count: Counter, budgets: Budgets)
    returns (template: string, used: seq<Chunk>)
    ensures template == ContextTemplate(chunks, history, count, budgets)
    ensures used == ContextUsed(chunks, count, budgets)
  {
    var historyText := BuildHistory(history, count, budgets.history);
    var parts, kept := BuildExcerpts(chunks, count, budgets.chunks);
    template := Template(historyText, Join("\n", parts));
    used := kept;
  }

  // ---- Markers ----

  lemma {:induction false} PickedAt<T>(xs: seq<T>, pick: seq<bool>, i: nat, n: nat)
    requires i < n <= |pick| && n <= |xs| && pick[i]
    ensures |Picked(xs, pick, n)| == Count(pick, n) > Count(pick, i)
    ensures Picked(xs, pick, n)[Count(pick, i)] == xs[i]
    decreases n
  {
    PickedSize(xs, pick, n - 1);
    if i < n - 1 {
      PickedAt(xs, pick, i, n - 1);
    }
  }

  lemma {:induction false} PickedSize<T>(xs: seq<T>, pick: seq<bool>, n: nat)
    requires n <= |pick| && n <= |xs|
    ensures |Picked(xs, pick, n)| == Count(pick, n)
  {
    if n > 0 {
      PickedSize(xs, pick, n - 1);
    }
  }

  /** Every picked item is one of the items. */
  lemma {:induction false} PickedFrom<T>(xs: seq<T>, pick: seq<bool>, n: nat, x: T)
    requires n <= |pick| && n <= |xs| && x in Picked(xs, pick, n)
    ensures x in xs
  {
    if x != xs[n - 1] {
      PickedFrom(xs, pick, n - 1, x);
    }
  }

  /** Picking keeps distinct items distinct. */
  lemma {:induction false} PickedDistinct(xs: seq<Chunk>, pick: seq<bool>, n: nat)
    requires n <= |pick| && n <= |xs| && Distinct(Ids(xs))
    ensures Distinct(Ids(Picked(xs, pick, n)))
    ensures forall p :: 0 <= p < |Picked(xs, pick, n)| ==> Picked(xs, pick, n)[p].id in Ids(xs)[..n]
  {
    if n > 0 {
      PickedDistinct(xs, pick, n - 1);
      assert Ids(xs)[..n] == Ids(xs)[..n - 1] + [xs[n - 1].id];
      assert forall p :: 0 <= p < n - 1 ==> Ids(xs)[..n - 1][p] == Ids(xs)[p] != Ids(xs)[n - 1];
      var before := Picked(xs, pick, n - 1);
      assert forall p :: 0 <= p < |before| ==> Ids(before)[p] == before[p].id;
    }
  }

  lemma {:induction false} CountFull(pick: seq<bool>, n: nat)
    requires n <= |pick|
    ensures Count(pick, n) <= n
    ensures Count(pick, n) == n <==> forall j :: 0 <= j < n ==> pick[j]
  {
    if n > 0 {
      CountFull(pick, n - 1);
    }
  }

  /** The answer cites a used chunk by its rank, the critic by its place among the used chunks:
      the two markers are the same exactly when no chunk before it was dropped. */
  lemma MarkersAgreeIff(chunks: seq<Chunk>, count: Counter, budget: nat, i: nat)
    requires i < |chunks| && Taken(chunks, count, budget)[i]
    ensures var pick := Taken(chunks, count, budget);
            var used := Picked(chunks, pick, |chunks|);
            var place := Count(pick, i);
            && place < |used| && used[place] == chunks[i]
            && (Marker(i + 1) == Marker(place + 1) <==> forall j :: 0 <= j < i ==> pick[j])
  {
    var pick := Taken(chunks, count, budget);
    var place := Count(pick, i);
    PickedAt(chunks, pick, i, |chunks|);
    CountFull(pick, i);
    if Marker(i + 1) == Marker(place + 1) {
      assert Marker(i + 1)[1..|Marker(i + 1)| - 1] == Decimal(i + 1);
      assert Marker(place + 1)[1..|Marker(place + 1)| - 1] == Decimal(place + 1);
      DecimalInjective(i + 1, place + 1);
    }
  }

  // ---- Filling the template ----

  /** The model is sent the context and the query as they are, for every query, exactly when the
      history and the excerpts hold no brace; otherwise `format` rewrites or refuses them. */
  lemma PromptVerbatimIff(historyText: string, chunksText: string, fmt: Formatter)
    requires NoEcho(fmt)
    ensures (forall query :: Fill(Template(historyText, chunksText), query, fmt)
                          == Some(Prompt(historyText, chunksText) + query))
       <==> BraceFree(historyText) && BraceFree(chunksText)
  {
    PromptBraces(historyText, chunksText);
    VerbatimIff(Prompt(historyText, chunksText), fmt);
  }

  lemma PromptBraces(historyText: string, chunksText: string)
    ensures BraceFree(Prompt(historyText, chunksText)) <==> BraceFree(historyText) && BraceFree(chunksText)
  {
    BraceFreeConcat("### Conversation so far:\n", OrElse(historyText, "(no prior turns)"));
    BraceFreeConcat("### Conversation so far:\n" + OrElse(historyText, "(no prior turns)"), "\n\n");
    var head := "### Conversation so far:\n" + OrElse(historyText, "(no prior turns)") + "\n\n";
    var body := OrElse(chunksText, "(no relevant sources found)");
    BraceFreeConcat(head, "### Source excerpts:\n");
    BraceFreeConcat(head + "### Source excerpts:\n", body);
    BraceFreeConcat(head + "### Source excerpts:\n" + body, "\n\n");
    BraceFreeConcat(head + "### Source excerpts:\n" + body + "\n\n", "### Question:\n");
  }

  lemma BraceFreeConcat(a: string, b: string)
    ensures BraceFree(a + b) <==> BraceFree(a) && BraceFree(b)
  {
  }

  // ---- Generation ----

  /** `None`: the call raised, or the reply had no content. */
  type Model = string -> Option<string>

  function Generated(query: string, chunks: seq<Chunk>, history: seq<Turn>, count: Counter, budgets: Budgets,
                     fmt: Formatter, model: Model)
    : Result<(string, seq<Chunk>), Error>
  {
    match Fill(ContextTemplate(chunks, history, count, budgets), query, fmt)
    case None => Failure(UncaughtError)
    case Some(message) =>
      match model(message)
      case None => Failure(GenerationError)
      case Some(answer) => Success((answer, ContextUsed(chunks, count, budgets)))
  }

  method GenerateAnswer(query: string, chunks: seq<Chunk>, history: seq<Turn>, count: Counter, budgets: Budgets,
                        fmt: Formatter, model: Model)
    returns (r: Result<(string, seq<Chunk>), Error>)
    ensures r == Generated(query, chunks, history, count, budgets, fmt, model)
  {
    var template, used := BuildContext(chunks, history, count, budgets);
    var message := Fill(template, query, fmt);
    if message == None {
      return Failure(UncaughtError);
    }
    var answer := model(message.value);
    if answer == None {
      return Failure(GenerationError);
    }
    return Success((answer.value, used));
  }

  /** The field raises for this query: its name is not the query's, the query is too short for its
      index, or its attribute, conversion or format is refused. */
  predicate Refused(seg: Segment, query: string, fmt: Formatter) {
    seg.Replaced? && Value(seg.field, query, fmt) == None
  }

  /** Exactly when generation raises an error that nobody catches, whatever the model: iff the context
      does not scan, or one of the fields in it is refused for this query. */
  lemma UncaughtIff(query: string, chunks: seq<Chunk>, history: seq<Turn>, count: Counter, budgets: Budgets,
                    fmt: Formatter, model: Model)
    ensures var scan := Scan(ContextTemplate(chunks, history, count, budgets), 0);
            Generated(query, chunks, history, count, budgets, fmt, model) == Failure(UncaughtError)
            <==> scan == None || exists i :: 0 <= i < |scan.value| && Refused(scan.value[i], query, fmt)
  {
    var t := ContextTemplate(chunks, history, count, budgets);
    FillFailsIff(t, query, fmt);
    if Scan(t, 0).Some? {
      assert forall i :: 0 <= i < |Scan(t, 0).value| ==>
          (Refused(Scan(t, 0).value[i], query, fmt)
           <==> Scan(t, 0).value[i].Replaced? && Value(Scan(t, 0).value[i].field, query, fmt) == None);
    }
  }

  /** Where no field of the context has an attribute or a format it is known beforehand: iff the query is shorter than
      a length that the excerpts and the history alone decide, be it none, some, or more than any. */
  lemma ContextNeedsIff(query: string, chunks: seq<Chunk>, history: seq<Turn>, count: Counter, budgets: Budgets,
                        fmt: Formatter, model: Model)
    requires var scan := Scan(ContextTemplate(chunks, history, count, budgets), 0); scan.Some? ==> AllExact(scan.value)
    ensures Generated(query, chunks, history, count, budgets, fmt, model) == Failure(UncaughtError)
       <==> TooShort(FillNeeds(ContextTemplate(chunks, history, count, budgets)), query)
  {
    FillNeedsIff(ContextTemplate(chunks, history, count, budgets), query, fmt);
  }

  /** Where no field of the context has an attribute, index or format, that is up to the
      excerpts and the history alone: no query and no model makes a difference. */
  lemma SimpleContextDecides(query: string, query': string, chunks: seq<Chunk>, history: seq<Turn>, count: Counter,
                             budgets: Budgets, fmt: Formatter, model: Model, model': Model)
    requires AllSimple(ContextTemplate(chunks, history, count, budgets))
    ensures Generated(query, chunks, history, count, budgets, fmt, model) == Failure(UncaughtError)
       <==> Generated(query', chunks, history, count, budgets, fmt, model') == Failure(UncaughtError)
  {
    SimpleFailsAlike(ContextTemplate(chunks, history, count, budgets), query, query', fmt, fmt);
  }

  /** Where one has an index it is not: a context that quotes `{query[n]}` once, in a text without other
      braces, raises for exactly the queries of at most `n` characters. */
  lemma IndexedContextNeedsLength(query: string, chunks: seq<Chunk>, history: seq<Turn>, count: Counter,
                                  budgets: Budgets, fmt: Formatter, model: Model, a: string, n: nat, b: string)
    requires BraceFree(a) && BraceFree(b)
    requires ContextTemplate(chunks, history, count, budgets) == a + Quoted(n) + b + QUERY
    ensures Generated(query, chunks, history, count, budgets, fmt, model) == Failure(UncaughtError) <==> |query| <= n
  {
    IndexNeedsLength(a, n, b, query, fmt);
  }

  function NameOf(c: Chunk): string {
    match c.filename case Some(f) => f case None => "None"
  }

  /** A single excerpt does it: its text quotes an index, and it fits the budget. */
  lemma QuotingChunkNeedsLength(query: string, chunk: Chunk, count: Counter, budgets: Budgets, fmt: Formatter,
                                model: Model, x: string, n: nat, y: string)
    requires chunk.text == x + Quoted(n) + y && BraceFree(x) && BraceFree(y) && BraceFree(NameOf(chunk))
    requires count(Excerpt(1, chunk)) <= budgets.chunks
    ensures Generated(query, [chunk], [], count, budgets, fmt, model) == Failure(UncaughtError) <==> |query| <= n
  {
    var a, b := QuotingTemplate(chunk, count, budgets, x, n, y);
    IndexedContextNeedsLength(query, [chunk], [], count, budgets, fmt, model, a, n, b);
  }

  lemma OneExcerpt(chunk: Chunk, count: Counter, budget: nat)
    requires count(Excerpt(1, chunk)) <= budget
    ensures ChunksText([chunk], count, budget) == Excerpt(1, chunk)
  {
    var costs := Costs([chunk], count);
    var pick := Taken([chunk], count, budget);
    assert Cost(costs, Greedy(costs, budget, 0), 0) == 0;
    assert pick == [] + [true];
    assert Picked(Excerpts([chunk]), pick, 1) == [] + [Excerpt(1, chunk)];
  }

  lemma Regroup(top: string, head: string, x: string, q: string, y: string, end: string, tail: string)
    ensures top + (head + (x + q + y) + end) + tail == (top + head + x) + q + (y + end + tail)
  {
  }

  lemma BraceFreeParts(a: string, b: string, c: string)
    requires BraceFree(a) && BraceFree(b) && BraceFree(c)
    ensures BraceFree(a + b + c)
  {
  }

  lemma ExcerptParts(chunk: Chunk) returns (head: string)
    ensures Excerpt(1, chunk) == head + chunk.text + "\n"
    ensures BraceFree(NameOf(chunk)) ==> BraceFree(head)
  {
    var front := Marker(1) + " (source: ";
    head := front + NameOf(chunk) + ")\n";
    if BraceFree(NameOf(chunk)) {
      assert BraceFree(Decimal(1));
      BraceFreeParts("[", Decimal(1), "]");
      BraceFreeParts(Marker(1), " (source: ", "");
      assert front + "" == front;
      BraceFreeParts(front, NameOf(chunk), ")\n");
    }
  }

  lemma PromptParts(e: string) returns (top: string, tail: string)
    requires e != ""
    ensures Prompt("", e) == top + e + tail && BraceFree(top) && BraceFree(tail)
  {
    top := "### Conversation so far:\n" + "(no prior turns)" + "\n\n" + "### Source excerpts:\n";
    tail := "\n\n" + "### Question:\n";
    assert Prompt("", e) == top + e + tail;
  }

  lemma QuotingTemplate(chunk: Chunk, count: Counter, budgets: Budgets, x: string, n: nat, y: string)
    returns (a: string, b: string)
    requires chunk.text == x + Quoted(n) + y && BraceFree(x) && BraceFree(y) && BraceFree(NameOf(chunk))
    requires count(Excerpt(1, chunk)) <= budgets.chunks
    ensures BraceFree(a) && BraceFree(b)
    ensures ContextTemplate([chunk], [], count, budgets) == a + Quoted(n) + b + QUERY
  {
    OneExcerpt(chunk, count, budgets.chunks);
    assert HistoryText([], count, budgets.history) == "";
    var head := ExcerptParts(chunk);
    var top, tail := PromptParts(Excerpt(1, chunk));
    Regroup(top, head, x, Quoted(n), y, "\n", tail);
    a, b := top + head + x, y + "\n" + tail;
    BraceFreeParts(top, head, x);
    BraceFreeParts(y, "\n", tail);
  }

  lemma PlainFill(historyText: string, chunksText: string, query: string, fmt: Formatter)
    requires BraceFree(historyText) && BraceFree(chunksText)
    ensures Fill(Template(historyText, chunksText), query, fmt) == Some(Prompt(historyText, chunksText) + query)
  {
    PromptBraces(historyText, chunksText);
    FillVerbatim(Prompt(historyText, chunksText), query, fmt);
  }

  /** A context without braces never raises: the model is asked exactly context and query, and the
      outcome is its answer with the chunks shown, or a generation error if it gives none. */
  lemma PlainContextGenerates(query: string, chunks: seq<Chunk>, history: seq<Turn>, count: Counter,
                              budgets: Budgets, fmt: Formatter, model: Model)
    requires BraceFree(HistoryText(history, count, budgets.history))
    requires BraceFree(ChunksText(chunks, count, budgets.chunks))
    ensures var asked := Prompt(HistoryText(history, count, budgets.history),
                                ChunksText(chunks, count, budgets.chunks)) + query;
            Generated(query, chunks, history, count, budgets, fmt, model)
            == match model(asked)
               case None => Failure(GenerationError)
               case Some(answer) => Success((answer, ContextUsed(chunks, count, budgets)))
  {
    PlainFill(HistoryText(history, count, budgets.history), ChunksText(chunks, count, budgets.chunks), query, fmt);
  }
}
