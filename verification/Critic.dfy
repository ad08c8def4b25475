/**
The critic: a second model call whose reply must parse as a verdict, and is taken as FAIL when it
does not.
*/
module Critic {
  import opened Wrappers
  import opened Strings
  import opened Retrieved
  import opened ContextBuilder

  /** The `unsupported_claims` field. `Items`: a list, string or object, as the strings a join
      goes over. `Mixed`: a list that holds something else than strings. `Unsized`: a number,
      boolean or null. */
  datatype Claims = Absent | Items(items: seq<string>) | Mixed | Unsized

  datatype Field = Pass | Fail | Other

  /** What `json.loads` makes of a text. */
  datatype Json = NotJson | NotObject | Object(result: Field, claims: Claims)

  type Parser = string -> Json

  datatype Verdict = Verdict(passed: bool, claims: Claims)

  // ---- Fences ----

  const FENCE := "```"

  predicate StartsWith(s: string, prefix: string) {
    |prefix| <= |s| && s[..|prefix|] == prefix
  }

  function StripJsonFences(text: string): string {
    var t := Strip(text);
    if StartsWith(t, FENCE) then Strip(Join("\n", DropFences(Lines(t)))) else Strip(t)
  }

  function DropFences(lines: seq<string>): seq<string>
    requires lines != []
  {
    var rest := if StartsWith(lines[0], FENCE) then lines[1..] else lines;
    if rest != [] && Strip(rest[|rest| - 1]) == FENCE then rest[..|rest| - 1] else rest
  }

  predicate AllSpace(s: string) {
    forall i :: 0 <= i < |s| ==> IsSpace(s[i])
  }

  /** Text that starts and ends with something else than space is what is left of it between
      spaces. */
  lemma StripAround(before: string, core: string, after: string)
    requires AllSpace(before) && AllSpace(after)
    requires core != "" && !IsSpace(core[0]) && !IsSpace(core[|core| - 1])
    ensures Strip(before + core + after) == core
  {
    LStripAround(before, core + after);
    assert before + core + after == before + (core + after);
    RStripAround(core, after);
  }

  lemma {:induction false} LStripAround(before: string, rest: string)
    requires AllSpace(before) && rest != "" && !IsSpace(rest[0])
    ensures LStrip(before + rest) == rest
  {
    if before == "" {
      assert before + rest == rest;
    } else {
      assert (before + rest)[1..] == before[1..] + rest;
      LStripAround(before[1..], rest);
    }
  }

  lemma {:induction false} RStripAround(core: string, after: string)
    requires AllSpace(after) && core != "" && !IsSpace(core[|core| - 1])
    ensures RStrip(core + after) == core
  {
    if after == "" {
      assert core + after == core;
    } else {
      assert (core + after)[..|core + after| - 1] == core + after[..|after| - 1];
      RStripAround(core, after[..|after| - 1]);
    }
  }

  lemma StripEnds(s: string)
    requires Strip(s) != ""
    ensures !IsSpace(Strip(s)[0]) && !IsSpace(Strip(s)[|Strip(s)| - 1])
  {
    LStripEnds(s);
    RStripEnds(LStrip(s));
    var b := RStripSpan(LStrip(s));
  }

  lemma {:induction false} LStripEnds(s: string)
    ensures LStrip(s) != "" ==> !IsSpace(LStrip(s)[0])
  {
    if s != "" && IsSpace(s[0]) {
      LStripEnds(s[1..]);
    }
  }

  lemma {:induction false} RStripEnds(s: string)
    ensures RStrip(s) != "" ==> !IsSpace(RStrip(s)[|RStrip(s)| - 1])
  {
    if s != "" && IsSpace(s[|s| - 1]) {
      RStripEnds(s[..|s| - 1]);
    }
  }

  function Fenced(lang: string, body: string): string {
    FENCE + lang + "\n" + body + "\n" + FENCE
  }

  lemma FencedLines(lang: string, body: string)
    requires OneLine(lang)
    ensures Lines(Fenced(lang, body)) == [FENCE + lang] + Lines(body) + [FENCE]
  {
    var rest := body + "\n" + FENCE;
    assert Fenced(lang, body) == (FENCE + lang) + "\n" + rest;
    LinesAfterFirst(FENCE + lang, rest);
    LinesBeforeLast(body, FENCE);
  }

  lemma StripFence()
    ensures Strip(FENCE) == FENCE
  {
    StripAround("", FENCE, "");
    assert "" + FENCE + "" == FENCE;
  }

  /** Round trip: what was wrapped in a fence comes out, stripped, whatever the language tag, the
      body and the white space around the fence. */
  lemma FencedRoundTrip(before: string, lang: string, body: string, after: string)
    requires OneLine(lang) && AllSpace(before) && AllSpace(after)
    ensures StripJsonFences(before + Fenced(lang, body) + after) == Strip(body)
  {
    var core := Fenced(lang, body);
    StripAround(before, core, after);
    FencedLines(lang, body);
    var lines := [FENCE + lang] + Lines(body) + [FENCE];
    assert StartsWith(core, FENCE) && StartsWith(lines[0], FENCE);
    StripFence();
    assert lines[1..] == Lines(body) + [FENCE];
    assert DropFences(lines) == Lines(body);
    JoinLines(body);
  }

  // ---- When a fence is removed ----

  /** A body in a fence, with `a` between tag and body and `b` between body and closing fence. */
  function FencedWith(lang: string, a: string, body: string, b: string): string {
    FENCE + lang + a + body + b + FENCE
  }

  /** Text that starts and ends with something else than space. */
  predicate Trimmed(s: string) {
    s != "" && !IsSpace(s[0]) && !IsSpace(s[|s| - 1])
  }

  lemma StripTrimmed(s: string)
    requires Trimmed(s)
    ensures Strip(s) == s
  {
    StripAround("", s, "");
    assert "" + s + "" == s;
  }

  lemma SpaceStrips(s: string)
    requires AllSpace(s)
    ensures Strip(s) == ""
  {
    var a, b := StripSpan(s);
    if a < b {
      assert Strip(s)[0] == s[a];
      StripEnds(s);
      assert false;
    }
  }

  lemma Unfenced(t: string)
    requires Trimmed(t) && StartsWith(t, FENCE)
    ensures StripJsonFences(t) == Strip(Join("\n", DropFences(Lines(t))))
  {
    StripTrimmed(t);
  }

  lemma StartsOn(first: string, s: string)
    requires StartsWith(first, FENCE)
    ensures StartsWith(first + s, FENCE)
  {
    assert (first + s)[..3] == first[..3];
  }

  /** What is left of a stripped reply that opens with a fence on its first line. */
  lemma FenceContent(t: string, first: string, rest: string)
    requires Trimmed(t) && t == first + "\n" + rest && OneLine(first) && StartsWith(first, FENCE)
    ensures var lines := Lines(rest);
            StripJsonFences(t) == if Strip(lines[|lines| - 1]) != FENCE then Strip(rest)
                                  else Strip(Join("\n", lines[..|lines| - 1]))
  {
    assert t == first + ("\n" + rest);
    StartsOn(first, "\n" + rest);
    Unfenced(t);
    LinesAfterFirst(first, rest);
    DropFirst(first, Lines(rest));
    JoinLines(rest);
  }

  lemma DropFirst(first: string, lines: seq<string>)
    requires StartsWith(first, FENCE) && lines != []
    ensures DropFences([first] + lines) == if Strip(lines[|lines| - 1]) == FENCE then lines[..|lines| - 1] else lines
  {
    assert ([first] + lines)[1..] == lines;
  }

  /** A last line that holds more than the fence is not taken for one. */
  lemma NotAFence(text: string, b: string)
    requires text != "" && !IsSpace(text[|text| - 1])
    ensures Strip(text + b + FENCE) != FENCE
  {
    var s := text + b + FENCE;
    var lo, hi := StripSpan(s);
    assert s[|text| - 1] == text[|text| - 1] && s[|s| - 1] == '`';
    assert lo <= |text| - 1 && |s| - 1 < hi;
  }

  lemma SpacedFence(b: string)
    requires AllSpace(b)
    ensures Strip(b + FENCE) == FENCE
  {
    StripAround(b, FENCE, "");
    assert b + FENCE + "" == b + FENCE;
  }

  /** Line breaks on both sides. */
  lemma FenceGoes(head: string, a1: string, body: string, b0: string, b1: string)
    requires OneLine(head) && StartsWith(head, FENCE) && Trimmed(body) && OneLine(b1)
    requires AllSpace(a1) && AllSpace(b0) && AllSpace(b1)
    ensures StripJsonFences(head + "\n" + (a1 + body + b0 + "\n" + (b1 + FENCE))) == body
  {
    var rest := a1 + body + b0 + "\n" + (b1 + FENCE);
    var t := head + "\n" + rest;
    assert t[0] == head[0] == '`' && t[|t| - 1] == '`';
    FenceContent(t, head, rest);
    LinesBeforeLast(a1 + body + b0, b1 + FENCE);
    SpacedFence(b1);
    JoinLines(a1 + body + b0);
    assert Lines(rest)[..|Lines(rest)| - 1] == Lines(a1 + body + b0);
    StripAround(a1, body, b0);
  }

  lemma LastLine(text: string, b: string) returns (last: string)
    requires text != "" && !IsSpace(text[|text| - 1]) && OneLine(b)
    ensures last != "" && !IsSpace(last[|last| - 1])
    ensures Lines(text + b + FENCE)[|Lines(text + b + FENCE)| - 1] == last + b + FENCE
  {
    if OneLine(text) {
      last := text;
      LinesOfOne(text + b + FENCE);
    } else {
      var front: string;
      front, last := SplitLast(text);
      LinesBeforeLast(front, last + b + FENCE);
      assert front + "\n" + (last + b + FENCE) == text + b + FENCE;
    }
  }

  /** No line break before the closing fence: it stays. */
  lemma FenceStays(head: string, text: string, b: string)
    requires OneLine(head) && StartsWith(head, FENCE) && OneLine(b)
    requires text != "" && !IsSpace(text[|text| - 1])
    ensures StripJsonFences(head + "\n" + (text + b + FENCE)) == Strip(text + b + FENCE)
  {
    var rest := text + b + FENCE;
    var t := head + "\n" + rest;
    assert t[0] == head[0] == '`' && t[|t| - 1] == '`';
    FenceContent(t, head, rest);
    var last := LastLine(text, b);
    NotAFence(last, b);
  }

  lemma StripFront(a: string, core: string)
    requires AllSpace(a) && Trimmed(core)
    ensures Strip(a + core) == core
  {
    StripAround(a, core, "");
    assert a + core + "" == a + core;
  }

  /** A break after the tag only: the result still has the fence. */
  lemma OpenOnly(head: string, a1: string, body: string, b: string)
    requires OneLine(head) && StartsWith(head, FENCE) && Trimmed(body) && OneLine(b) && AllSpace(a1)
    ensures StripJsonFences(head + "\n" + (a1 + body + b + FENCE)) == body + b + FENCE
  {
    var text, core := a1 + body, body + b + FENCE;
    assert text[|text| - 1] == body[|body| - 1];
    FencedTrimmed(body, b);
    assert a1 + core == text + b + FENCE;
    FrontStripped(head, text, b, a1, core);
  }

  lemma FrontStripped(head: string, text: string, b: string, a1: string, core: string)
    requires OneLine(head) && StartsWith(head, FENCE) && OneLine(b) && AllSpace(a1) && Trimmed(core)
    requires text != "" && !IsSpace(text[|text| - 1]) && text + b + FENCE == a1 + core
    ensures StripJsonFences(head + "\n" + (text + b + FENCE)) == core
  {
    FenceStays(head, text, b);
    StripFront(a1, core);
  }

  lemma FencedTrimmed(body: string, b: string)
    requires Trimmed(body)
    ensures Trimmed(body + b + FENCE)
  {
    var core := body + b + FENCE;
    assert core[|core| - 1] == '`' && core[0] == body[0];
  }

  lemma FewerBreaks(r: string, s: string, a: nat, b: nat)
    requires a <= b <= |s| && r == s[a..b]
    ensures multiset(r)['\n'] <= multiset(s)['\n']
  {
    assert s == s[..a] + s[a..b] + s[b..];
  }

  /** No break on either side, but in the body: the first line of the body goes with the tag. */
  lemma BreakInBody(head: string, f: string, g: string, b: string)
    requires OneLine(head) && StartsWith(head, FENCE) && OneLine(f) && OneLine(b) && Trimmed(f + "\n" + g)
    ensures StripJsonFences((head + f) + "\n" + (g + b + FENCE)) != f + "\n" + g
  {
    var body := f + "\n" + g;
    assert |body| == |f| + 1 + |g| && body[|f|] == '\n';
    assert g != "" && body[|body| - 1] == g[|g| - 1];
    var rest := g + b + FENCE;
    assert (head + f)[..3] == head[..3];
    FenceStays(head + f, g, b);
    var lo, hi := StripSpan(rest);
    FewerBreaks(Strip(rest), rest, lo, hi);
    assert multiset(rest) == multiset(g) + multiset(b) + multiset(FENCE);
    assert multiset(body) == multiset(f) + multiset{'\n'} + multiset(g);
  }

  /** Of text that ends in space after `n` characters the strip keeps at most `n`. */
  lemma StripCuts(x: string, n: nat)
    requires n <= |x| && AllSpace(x[n..])
    ensures |Strip(x)| <= n
  {
    var a, b := StripSpan(x);
    if a < b && b > n {
      assert Strip(x)[|Strip(x)| - 1] == x[b - 1] == x[n..][b - 1 - n];
      StripEnds(x);
      assert false;
    }
  }

  /** A break before the closing fence only: the first line of the body, at least, goes with the tag. */
  lemma CloseOnly(head: string, body: string, b0: string, b1: string)
    requires OneLine(head) && StartsWith(head, FENCE) && Trimmed(body) && OneLine(b1) && AllSpace(b0) && AllSpace(b1)
    ensures StripJsonFences(head + (body + b0) + "\n" + (b1 + FENCE)) != body
  {
    var text := body + b0;
    var t := head + text + "\n" + (b1 + FENCE);
    assert t[0] == head[0] == '`' && t[|t| - 1] == '`';
    SpacedFence(b1);
    if OneLine(text) {
      assert (head + text)[..3] == head[..3];
      FenceContent(t, head + text, b1 + FENCE);
      LinesOfOne(b1 + FENCE);
      SpaceStrips("");
    } else {
      var f, x := SplitFirst(text);
      var rest := x + "\n" + (b1 + FENCE);
      assert t == (head + f) + "\n" + rest && (head + f)[..3] == head[..3];
      FenceContent(t, head + f, rest);
      LinesBeforeLast(x, b1 + FENCE);
      assert Lines(rest)[..|Lines(rest)| - 1] == Lines(x);
      JoinLines(x);
      ShorterRest(body, b0, f, x);
    }
  }

  lemma ShorterRest(body: string, b0: string, f: string, x: string)
    requires Trimmed(body) && AllSpace(b0) && body + b0 == f + "\n" + x
    ensures |Strip(x)| < |body|
  {
    var k := |f| + 1;
    assert x == (body + b0)[k..];
    if k <= |body| {
      var n := |body| - k;
      assert x[n..] == b0;
      StripCuts(x, n);
    } else {
      assert forall i :: 0 <= i < |x| ==> x[i] == b0[i + k - |body|];
      SpaceStrips(x);
    }
  }

  lemma NoBreaks(head: string, body: string, b: string)
    requires OneLine(head) && StartsWith(head, FENCE) && Trimmed(body) && OneLine(b)
    ensures StripJsonFences(head + body + b + FENCE) != body
  {
    var t := head + body + b + FENCE;
    assert t[0] == head[0] == '`' && t[|t| - 1] == '`';
    if OneLine(body) {
      StripTrimmed(t);
      assert t[..3] == head[..3];
      OneLineFenceIsLost(t);
    } else {
      var f, g := SplitFirst(body);
      assert t == (head + f) + "\n" + (g + b + FENCE);
      BreakInBody(head, f, g, b);
    }
  }

  /** Exactly when a fence is removed: iff a line break follows the tag, and another one the body, so
      that the closing fence has a line of its own. */
  lemma FenceRemovedIff(lang: string, a: string, body: string, b: string)
    requires OneLine(lang) && AllSpace(a) && AllSpace(b) && Trimmed(body)
    ensures StripJsonFences(FencedWith(lang, a, body, b)) == body <==> !OneLine(a) && !OneLine(b)
  {
    var t := FencedWith(lang, a, body, b);
    if !OneLine(a) {
      var a0, a1 := SplitFirst(a);
      var head := FENCE + lang + a0;
      SpaceParts(a, a0, a1);
      if !OneLine(b) {
        var b0, b1 := SplitLast(b);
        SpaceParts(b, b0, b1);
        assert t == head + "\n" + (a1 + body + b0 + "\n" + (b1 + FENCE));
        FenceGoes(head, a1, body, b0, b1);
      } else {
        assert t == head + "\n" + (a1 + body + b + FENCE);
        OpenOnly(head, a1, body, b);
        assert |body + b + FENCE| > |body|;
      }
    } else {
      var head := FENCE + lang + a;
      if !OneLine(b) {
        var b0, b1 := SplitLast(b);
        SpaceParts(b, b0, b1);
        assert t == head + (body + b0) + "\n" + (b1 + FENCE);
        CloseOnly(head, body, b0, b1);
      } else {
        assert t == head + body + b + FENCE;
        NoBreaks(head, body, b);
      }
    }
  }

  lemma SpaceParts(s: string, x: string, y: string)
    requires AllSpace(s) && s == x + "\n" + y
    ensures AllSpace(x) && AllSpace(y)
  {
    assert forall i :: 0 <= i < |x| ==> x[i] == s[i];
    assert forall i :: 0 <= i < |y| ==> y[i] == s[|x| + 1 + i];
  }

  /** A reply fenced on a single line is lost: nothing of it is left to parse. */
  lemma OneLineFenceIsLost(text: string)
    requires OneLine(Strip(text)) && StartsWith(Strip(text), FENCE)
    ensures StripJsonFences(text) == ""
  {
    LinesOfOne(Strip(text));
  }

  // ---- The verdict ----

  function Numbered(used: seq<Chunk>): seq<string> {
    seq(|used|, i requires 0 <= i < |used| => Marker(i + 1) + " " + used[i].text)
  }

  function CriticMessage(answer: string, used: seq<Chunk>): string {
    "### Source excerpts:\n"
    + (if used == [] then "(no source excerpts were available)" else Join("\n\n", Numbered(used)))
    + "\n\n### Answer to check:\n" + answer
  }

  const FAILED_CLOSED := Verdict(false, Items([]))

  function CheckGroundedness(answer: string, used: seq<Chunk>, model: Model, parse: Parser): Result<Verdict, Error> {
    match model(CriticMessage(answer, used))
    case None => Failure(GenerationError)
    case Some(raw) => Judged(parse(StripJsonFences(raw)))
  }

  function Judged(json: Json): Result<Verdict, Error> {
    match json
    case NotJson => Success(FAILED_CLOSED)
    case NotObject => Failure(GenerationError)
    case Object(result, claims) =>
      if result == Other then Success(FAILED_CLOSED)
      else if claims == Unsized then Failure(GenerationError)
      else Success(Verdict(result == Pass, claims))
  }

  /** Fail closed: a PASS comes out exactly when the model replied and its reply, freed of fences,
      parsed to an object that says PASS and whose claims have a length. */
  lemma PassIffParsed(answer: string, used: seq<Chunk>, model: Model, parse: Parser)
    ensures (exists claims :: CheckGroundedness(answer, used, model, parse) == Success(Verdict(true, claims)))
       <==> (exists raw, claims :: && model(CriticMessage(answer, used)) == Some(raw)
                                   && parse(StripJsonFences(raw)) == Object(Pass, claims) && claims != Unsized)
  {
    var reply := model(CriticMessage(answer, used));
    if reply.Some? {
      var json := parse(StripJsonFences(reply.value));
      if json.Object? && json.result == Pass && json.claims != Unsized {
        assert CheckGroundedness(answer, used, model, parse) == Success(Verdict(true, json.claims));
        assert reply == Some(reply.value) && json == Object(Pass, json.claims);
      }
    }
  }

  /** Exactly when the check fails instead of judging, always with a generation error: iff the call raised or had no
      content, or the reply was JSON but no object, or a verdict whose claims have no length. */
  lemma CheckFailsIff(answer: string, used: seq<Chunk>, model: Model, parse: Parser, e: Error)
    ensures CheckGroundedness(answer, used, model, parse) == Failure(e)
       <==> e == GenerationError &&
            match model(CriticMessage(answer, used))
            case None => true
            case Some(raw) =>
              var json := parse(StripJsonFences(raw));
              json == NotObject || json == Object(Pass, Unsized) || json == Object(Fail, Unsized)
  {
  }

  /** Exactly when a fence leaves the verdict what it is for the bare reply, whatever the parser makes
      of the two: iff a line break stands on both sides of the body. */
  lemma FenceIgnoredIff(answer: string, used: seq<Chunk>, fenced: Model, bare: Model,
                        before: string, lang: string, a: string, body: string, b: string, after: string)
    requires OneLine(lang) && AllSpace(before) && AllSpace(after) && AllSpace(a) && AllSpace(b)
    requires Trimmed(body) && !StartsWith(body, FENCE)
    requires fenced(CriticMessage(answer, used)) == Some(before + FencedWith(lang, a, body, b) + after)
    requires bare(CriticMessage(answer, used)) == Some(body)
    ensures (forall parse ::
               CheckGroundedness(answer, used, fenced, parse) == CheckGroundedness(answer, used, bare, parse))
       <==> !OneLine(a) && !OneLine(b)
  {
    var t := FencedWith(lang, a, body, b);
    FenceRemovedIff(lang, a, body, b);
    AroundFence(before, t, after);
    StripTrimmed(body);
    SameVerdictsIff(answer, used, fenced, bare, before + t + after, body);
  }

  /** A parser can tell any two texts apart. */
  lemma SameVerdictsIff(answer: string, used: seq<Chunk>, one: Model, other: Model, raw: string, raw': string)
    requires one(CriticMessage(answer, used)) == Some(raw) && other(CriticMessage(answer, used)) == Some(raw')
    ensures (forall parse ::
               CheckGroundedness(answer, used, one, parse) == CheckGroundedness(answer, used, other, parse))
       <==> StripJsonFences(raw) == StripJsonFences(raw')
  {
    var text := StripJsonFences(raw');
    if StripJsonFences(raw) != text {
      var only: Parser := s => if s == text then Object(Pass, Absent) else NotJson;
      assert CheckGroundedness(answer, used, other, only) == Success(Verdict(true, Absent));
      assert CheckGroundedness(answer, used, one, only) == Success(FAILED_CLOSED);
    }
  }

  lemma AroundFence(before: string, t: string, after: string)
    requires AllSpace(before) && AllSpace(after) && StartsWith(t, FENCE) && t[|t| - 1] == '`'
    ensures StripJsonFences(before + t + after) == StripJsonFences(t)
  {
    assert t[0] == t[..3][0];
    StripAround(before, t, after);
    StripTrimmed(t);
  }
}
