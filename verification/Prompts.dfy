/**
What the two models read, letter by letter, in terms of the turns and chunks that are handed in.
*/
module Prompts {
  import opened Wrappers
  import opened Strings
  import opened Arithmetic
  import opened Retrieved
  import opened Format
  import opened ContextBuilder

  // ---- Lines and excerpts ----

  /** `lines` are the turns from `from` on, as the model reads them. */
  predicate ReadAsTurns(lines: seq<string>, history: seq<Turn>, from: nat) {
    && from + |lines| == |history|
    && forall i :: 0 <= i < |lines| ==>
         lines[i] == Capitalize(history[from + i].role) + ": " + history[from + i].content + "\n"
  }

  predicate ReadAsExcerpt(part: string, chunk: Chunk, rank: nat) {
    part == "[" + Decimal(rank) + "] (source: " + NameOf(chunk) + ")\n" + chunk.text + "\n"
  }

  /** `parts` are the chunks at `kept`, each with its rank. */
  predicate ReadAsExcerpts(parts: seq<string>, chunks: seq<Chunk>, kept: seq<nat>) {
    && |parts| == |kept|
    && forall j :: 0 <= j < |kept| ==> kept[j] < |chunks| && ReadAsExcerpt(parts[j], chunks[kept[j]], kept[j] + 1)
  }

  predicate Increasing(kept: seq<nat>) {
    forall i, j :: 0 <= i < j < |kept| ==> kept[i] < kept[j]
  }

  /** The first letter as a capital and all others small; nothing else changes. */
  lemma {:induction false} CapitalizeIs(s: string)
    ensures |Capitalize(s)| == |s|
    ensures forall i :: 0 <= i < |s| ==>
              var c := Capitalize(s)[i];
              if i == 0 then !('a' <= c <= 'z') && (c == s[0] || ('a' <= s[0] <= 'z' && c as int == s[0] as int - 32))
              else !('A' <= c <= 'Z') && (c == s[i] || ('A' <= s[i] <= 'Z' && c as int == s[i] as int + 32))
  {
    if s != "" {
      LowerIs(s[1..]);
    }
  }

  lemma {:induction false} LowerIs(s: string)
    ensures |AllLower(s)| == |s|
    ensures forall i :: 0 <= i < |s| ==>
              var c := AllLower(s)[i];
              !('A' <= c <= 'Z') && (c == s[i] || ('A' <= s[i] <= 'Z' && c as int == s[i] as int + 32))
  {
    if s != "" {
      LowerIs(s[1..]);
    }
  }

  /** The two roles there are. */
  lemma RolesRead()
    ensures Capitalize("user") == "User" && Capitalize("assistant") == "Assistant"
  {
    CapitalizeIs("user");
    CapitalizeIs("assistant");
  }

  // ---- The conversation ----

  lemma {:induction false} TextFromJoins(lines: seq<string>, from: nat)
    requires from <= |lines|
    ensures TextFrom(lines, from) == Join("", lines[from..])
    decreases |lines| - from
  {
    if from < |lines| {
      TextFromJoins(lines, from + 1);
      assert lines[from..] == [lines[from]] + lines[from + 1..];
      if from + 1 == |lines| {
        assert lines[from..] == [lines[from]];
      } else {
        assert lines[from] + "" + Join("", lines[from + 1..]) == lines[from] + Join("", lines[from + 1..]);
      }
    }
  }

  lemma {:induction false} CostFromSums(costs: seq<nat>, from: nat)
    requires from <= |costs|
    ensures CostFrom(costs, from) == Sum(costs[from..])
    decreases |costs| - from
  {
    if from < |costs| {
      CostFromSums(costs, from + 1);
      SumFront(costs[from..]);
      assert costs[from..][1..] == costs[from + 1..];
    }
  }

  /** The budget is spent on the lines from `j` on. */
  function Spent(lines: seq<string>, count: Counter, j: nat): nat
    requires j <= |lines|
  {
    Sum(Counts(lines[j..], count))
  }

  /** The conversation the model reads: the turns from some `from` on, in their order, each with its role, and as many
      as fit the budget. */
  lemma ConversationReads(history: seq<Turn>, count: Counter, budget: nat)
    returns (all: seq<string>, from: nat)
    ensures ReadAsTurns(all, history, 0) && from <= |history| == |all|
    ensures HistoryText(history, count, budget) == Join("", all[from..])
    ensures forall j :: 0 <= j <= |all| ==> (Spent(all, count, j) <= budget <==> from <= j)
  {
    all := HistoryLines(history);
    from := HistoryStart(history, count, budget);
    TextFromJoins(all, from);
    forall j | 0 <= j <= |all|
      ensures Spent(all, count, j) <= budget <==> from <= j
    {
      LongestHistory(history, count, budget, j);
      SpentIs(all, count, j);
    }
  }

  lemma SpentIs(lines: seq<string>, count: Counter, j: nat)
    requires j <= |lines|
    ensures Spent(lines, count, j) == CostFrom(Counts(lines, count), j)
  {
    CostFromSums(Counts(lines, count), j);
    assert Counts(lines, count)[j..] == Counts(lines[j..], count);
  }

  // ---- The excerpts ----

  lemma {:induction false} PickedKept(pick: seq<bool>, n: nat) returns (kept: seq<nat>)
    requires n <= |pick|
    ensures Increasing(kept) && forall k :: k in kept <==> 0 <= k < n && pick[k]
  {
    kept := [];
    if n > 0 {
      kept := PickedKept(pick, n - 1);
      assert forall j :: 0 <= j < |kept| ==> kept[j] in kept;
      if pick[n - 1] {
        kept := kept + [n - 1];
      }
    }
  }

  /** `m` of the kept ones come before `i`. */
  predicate Splits(kept: seq<nat>, i: nat, m: nat) {
    && m <= |kept|
    && (forall j :: 0 <= j < m ==> kept[j] < i)
    && (forall j :: m <= j < |kept| ==> kept[j] >= i)
  }

  function AtKept<T>(xs: seq<T>, kept: seq<nat>): seq<T>
    requires forall j :: 0 <= j < |kept| ==> kept[j] < |xs|
  {
    seq(|kept|, j requires 0 <= j < |kept| => xs[kept[j]])
  }

  lemma SplitsStep(kept: seq<nat>, i: nat, m: nat) returns (m': nat)
    requires i > 0 && Increasing(kept) && Splits(kept, i, m)
    ensures Splits(kept, i - 1, m') && m' == (if i - 1 in kept then m - 1 else m)
    ensures i - 1 in kept ==> m > 0 && kept[m - 1] == i - 1
  {
    m' := m;
    if i - 1 in kept {
      var j :| 0 <= j < |kept| && kept[j] == i - 1;
      assert forall a :: 0 <= a < m - 1 ==> kept[a] < kept[m - 1];
      m' := m - 1;
    }
  }

  /** The picked ones among the first `i`, and what they cost. */
  lemma {:induction false} PickedAre<T>(xs: seq<T>, costs: seq<nat>, pick: seq<bool>, kept: seq<nat>, i: nat, m: nat)
    requires i <= |pick| == |xs| == |costs| && Increasing(kept) && Splits(kept, i, m)
    requires forall k :: k in kept <==> 0 <= k < |pick| && pick[k]
    ensures forall j :: 0 <= j < m ==> kept[j] < |xs|
    ensures Picked(xs, pick, i) == AtKept(xs, kept[..m])
    ensures Cost(costs, pick, i) == Sum(AtKept(costs, kept[..m]))
  {
    assert forall j :: 0 <= j < |kept| ==> kept[j] in kept;
    if i > 0 {
      var m' := SplitsStep(kept, i, m);
      PickedAre(xs, costs, pick, kept, i - 1, m');
      assert i - 1 in kept <==> pick[i - 1];
      if i - 1 in kept {
        assert AtKept(xs, kept[..m]) == AtKept(xs, kept[..m - 1]) + [xs[i - 1]];
        assert AtKept(costs, kept[..m])[..m - 1] == AtKept(costs, kept[..m - 1]);
      }
    } else {
      SplitsNone(kept, m);
    }
  }

  lemma SplitsNone(kept: seq<nat>, m: nat)
    requires Splits(kept, 0, m)
    ensures m == 0 && kept[..m] == []
  {
    var first := if kept == [] then 0 else kept[0];
  }

  /** Excerpt `i` is shown iff it fits what the shown ones before it left. */
  ghost predicate ShownIff(kept: seq<nat>, parts: seq<string>, all: seq<string>, count: Counter, budget: nat, i: nat,
                           m: nat)
    requires i < |all|
  {
    Splits(kept, i, m) && m <= |parts| ==>
      (i in kept <==> Sum(Counts(parts[..m], count)) + count(all[i]) <= budget)
  }

  function Upto(n: nat): seq<nat> {
    seq(n, i requires 0 <= i < n => i)
  }

  /** The excerpts the model reads: chunks in their order, each with its rank, file name and text; each that fits what
      those before it left of the budget, and these chunks are the ones used. */
  lemma ExcerptsRead(chunks: seq<Chunk>, count: Counter, budget: nat)
    returns (all: seq<string>, kept: seq<nat>, parts: seq<string>)
    ensures ReadAsExcerpts(all, chunks, Upto(|chunks|)) && ReadAsExcerpts(parts, chunks, kept) && Increasing(kept)
    ensures ChunksText(chunks, count, budget) == Join("\n", parts)
    ensures Picked(chunks, Taken(chunks, count, budget), |chunks|) == AtKept(chunks, kept)
    ensures forall i, m: nat :: 0 <= i < |all| ==> ShownIff(kept, parts, all, count, budget, i, m)
  {
    all := Excerpts(chunks);
    kept := KeptRead(chunks, count, budget);
    parts := AtKept(all, kept);
    PartsRead(chunks, kept, parts);
    PartsRead(chunks, Upto(|chunks|), all);
    forall i, m: nat | 0 <= i < |all|
      ensures ShownIff(kept, parts, all, count, budget, i, m)
    {
      ShownAt(chunks, count, budget, kept, i, m);
    }
  }

  lemma PartsRead(chunks: seq<Chunk>, kept: seq<nat>, parts: seq<string>)
    requires forall j :: 0 <= j < |kept| ==> kept[j] < |chunks|
    requires parts == AtKept(Excerpts(chunks), kept)
    ensures ReadAsExcerpts(parts, chunks, kept)
  {
  }

  lemma KeptRead(chunks: seq<Chunk>, count: Counter, budget: nat) returns (kept: seq<nat>)
    ensures var pick := Taken(chunks, count, budget); forall k :: k in kept <==> 0 <= k < |pick| && pick[k]
    ensures Increasing(kept) && forall j :: 0 <= j < |kept| ==> kept[j] < |chunks|
    ensures ChunksText(chunks, count, budget) == Join("\n", AtKept(Excerpts(chunks), kept))
    ensures Picked(chunks, Taken(chunks, count, budget), |chunks|) == AtKept(chunks, kept)
  {
    var pick := Taken(chunks, count, budget);
    var costs := Costs(chunks, count);
    kept := PickedKept(pick, |pick|);
    assert forall j :: 0 <= j < |kept| ==> kept[j] in kept;
    assert kept[..|kept|] == kept;
    PickedAre(chunks, costs, pick, kept, |chunks|, |kept|);
    PickedAre(Excerpts(chunks), costs, pick, kept, |chunks|, |kept|);
  }

  lemma ShownAt(chunks: seq<Chunk>, count: Counter, budget: nat, kept: seq<nat>, i: nat, m: nat)
    requires var pick := Taken(chunks, count, budget); forall k :: k in kept <==> 0 <= k < |pick| && pick[k]
    requires Increasing(kept) && i < |chunks| && forall j :: 0 <= j < |kept| ==> kept[j] < |chunks|
    ensures ShownIff(kept, AtKept(Excerpts(chunks), kept), Excerpts(chunks), count, budget, i, m)
  {
    var pick := Taken(chunks, count, budget);
    var costs := Costs(chunks, count);
    var all := Excerpts(chunks);
    if Splits(kept, i, m) {
      PickedAre(all, costs, pick, kept, i, m);
      GreedyPrefix(costs, budget, |chunks|, i);
      assert Counts(AtKept(all, kept)[..m], count) == AtKept(costs, kept[..m]);
      assert i in kept <==> pick[i];
    }
  }

  // ---- The message ----

  lemma JoinEmptyIff(sep: string, parts: seq<string>)
    requires forall i :: 0 <= i < |parts| ==> parts[i] != ""
    ensures Join(sep, parts) == "" <==> parts == []
  {
  }

  /** The whole message, with the place of the query: its lines are the longest end of the conversation that fits the
      one budget, its excerpts those that fit the other, and these chunks are the ones used. */
  lemma MessageReads(chunks: seq<Chunk>, history: seq<Turn>, count: Counter, budgets: Budgets)
    returns (turns: seq<string>, from: nat, excerpts: seq<string>, parts: seq<string>, kept: seq<nat>)
    ensures ReadAsTurns(turns, history, 0) && from <= |turns|
    ensures forall j :: 0 <= j <= |turns| ==> (Spent(turns, count, j) <= budgets.history <==> from <= j)
    ensures ReadAsExcerpts(excerpts, chunks, Upto(|chunks|)) && ReadAsExcerpts(parts, chunks, kept) && Increasing(kept)
    ensures forall i, m: nat :: 0 <= i < |excerpts| ==> ShownIff(kept, parts, excerpts, count, budgets.chunks, i, m)
    ensures ContextTemplate(chunks, history, count, budgets)
         == "### Conversation so far:\n" + (if turns[from..] == [] then "(no prior turns)" else Join("", turns[from..]))
            + "\n\n### Source excerpts:\n"
            + (if parts == [] then "(no relevant sources found)" else Join("\n", parts))
            + "\n\n### Question:\n" + "{query}"
    ensures ContextUsed(chunks, count, budgets) == AtKept(chunks, kept)
  {
    turns, from := ConversationReads(history, count, budgets.history);
    excerpts, kept, parts := ExcerptsRead(chunks, count, budgets.chunks);
    JoinEmptyIff("", turns[from..]);
    JoinEmptyIff("\n", parts);
    TemplateIs(HistoryText(history, count, budgets.history), ChunksText(chunks, count, budgets.chunks));
  }

  lemma TemplateIs(historyText: string, chunksText: string)
    ensures Template(historyText, chunksText)
         == "### Conversation so far:\n" + (if historyText == "" then "(no prior turns)" else historyText)
            + "\n\n### Source excerpts:\n" + (if chunksText == "" then "(no relevant sources found)" else chunksText)
            + "\n\n### Question:\n" + "{query}"
  {
    var h := if historyText == "" then "(no prior turns)" else historyText;
    var x := if chunksText == "" then "(no relevant sources found)" else chunksText;
    assert "\n\n" + "### Source excerpts:\n" == "\n\n### Source excerpts:\n";
    assert "\n\n" + "### Question:\n" == "\n\n### Question:\n";
    Glue("### Conversation so far:\n", h, "\n\n", "### Source excerpts:\n", x, "### Question:\n", "{query}");
  }

  lemma Glue(a: string, h: string, br: string, b: string, x: string, c: string, q: string)
    ensures a + h + br + b + x + br + c + q == a + h + (br + b) + x + (br + c) + q
  {
  }
}
