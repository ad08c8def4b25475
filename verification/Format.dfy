/**
`str.format` with one keyword argument, `query`: the scan of the template into text and fields, and
what a field gives.
*/
module Format {
  import opened Wrappers
  import opened Strings

  /** A field as scanned: `{name!conversion:spec}`. */
  datatype Field = Field(name: string, conversion: Option<char>, spec: string)

  datatype Segment = Text(text: string) | Replaced(field: Field)

  /** `given`: what a field of the query with an attribute or a format gives, or `None` if it raises.
      `quoted`: what the conversions `r` and `a` make of a string, which never raise. */
  datatype Formatter = Formatter(given: (Field, string) -> Option<string>, quoted: (char, string) -> string)

  // ---- The scan ----

  /** Where the name that starts at `i` ends: at a `}`, `:` or `!` outside of brackets. */
  function NameEnd(t: string, i: nat, inBrackets: bool): (r: Option<nat>)
    ensures r.Some? ==> i <= r.value < |t|
    decreases |t| - i
  {
    if i >= |t| then None
    else if inBrackets then NameEnd(t, i + 1, t[i] != ']')
    else if t[i] == '{' then None
    else if t[i] == '}' || t[i] == ':' || t[i] == '!' then Some(i)
    else NameEnd(t, i + 1, t[i] == '[')
  }

  /** Where the format that is open `depth` braces deep at `i` ends. */
  function SpecEnd(t: string, i: nat, depth: nat): (r: Option<nat>)
    requires depth > 0
    ensures r.Some? ==> i <= r.value < |t|
    decreases |t| - i
  {
    if i >= |t| then None
    else if t[i] == '{' then SpecEnd(t, i + 1, depth + 1)
    else if t[i] == '}' then if depth == 1 then Some(i) else SpecEnd(t, i + 1, depth - 1)
    else SpecEnd(t, i + 1, depth)
  }

  function WithSpec(t: string, name: string, conversion: Option<char>, i: nat): (r: Option<(Field, nat)>)
    ensures r.Some? ==> i < r.value.1 <= |t|
  {
    match SpecEnd(t, i, 1)
    case None => None
    case Some(e) => Some((Field(name, conversion, t[i..e]), e + 1))
  }

  /** The field whose opening brace stands before index `i`, and where it ends. */
  function FieldAt(t: string, i: nat): (r: Option<(Field, nat)>)
    ensures r.Some? ==> i < r.value.1 <= |t|
  {
    match NameEnd(t, i, false)
    case None => None
    case Some(n) =>
      if t[n] == '}' then Some((Field(t[i..n], None, ""), n + 1))
      else if t[n] == ':' then WithSpec(t, t[i..n], None, n + 1)
      else if n + 2 >= |t| then None
      else if t[n + 2] == '}' then Some((Field(t[i..n], Some(t[n + 1]), ""), n + 3))
      else if t[n + 2] == ':' then WithSpec(t, t[i..n], Some(t[n + 1]), n + 3)
      else None
  }

  function Cons(seg: Segment, rest: Option<seq<Segment>>): Option<seq<Segment>> {
    match rest
    case None => None
    case Some(segs) => Some([seg] + segs)
  }

  /** The template from `i` on, or `None` if a brace is alone or a field does not end. */
  function Scan(t: string, i: nat): Option<seq<Segment>>
    decreases |t| - i
  {
    if i >= |t| then Some([])
    else if (t[i] == '{' || t[i] == '}') && i + 1 < |t| && t[i + 1] == t[i] then
      Cons(Text([t[i]]), Scan(t, i + 2))
    else if t[i] == '}' then None
    else if t[i] == '{' then
      match FieldAt(t, i + 1)
      case None => None
      case Some((f, end)) => Cons(Replaced(f), Scan(t, end))
    else Cons(Text([t[i]]), Scan(t, i + 1))
  }

  // ---- What a field gives ----

  /** The part of a name before its first `.` or `[`. */
  function Head(name: string, i: nat): (r: nat)
    requires i <= |name|
    ensures i <= r <= |name|
    decreases |name| - i
  {
    if i == |name| || name[i] == '.' || name[i] == '[' then i else Head(name, i + 1)
  }

  predicate IsDigit(c: char) { '0' <= c <= '9' }

  function DigitOf(c: char): nat
    requires IsDigit(c)
  {
    c as int - '0' as int
  }

  function Number(s: string): nat
    requires forall i :: 0 <= i < |s| ==> IsDigit(s[i])
  {
    if s == "" then 0 else 10 * Number(s[..|s| - 1]) + DigitOf(s[|s| - 1])
  }

  /** Where the first `]` from `i` on is. */
  function Closing(s: string, i: nat): (r: nat)
    requires i <= |s|
    ensures i <= r <= |s| && (r < |s| ==> s[r] == ']')
    decreases |s| - i
  {
    if i == |s| || s[i] == ']' then i else Closing(s, i + 1)
  }

  /** `[3][0]` as the indices it names; `None` if it is anything else. */
  function Indices(s: string): Option<seq<nat>>
    decreases |s|
  {
    if s == "" then Some([])
    else if s[0] != '[' then None
    else
      var e := Closing(s, 1);
      if e == |s| || e == 1 || exists i :: 1 <= i < e && !IsDigit(s[i]) then None
      else
        var digits := s[1..e];
        match Indices(s[e + 1..])
        case None => None
        case Some(path) => Some([Number(digits)] + path)
  }

  /** `value[n]` is a one-character string. */
  function Follow(value: string, path: seq<nat>): Option<string>
    decreases |path|
  {
    if path == [] then Some(value)
    else if path[0] < |value| then Follow([value[path[0]]], path[1..])
    else None
  }

  predicate IsConversion(c: char) { c == 'r' || c == 's' || c == 'a' }

  predicate ConversionOk(f: Field) {
    f.conversion.Some? ==> IsConversion(f.conversion.value)
  }

  function Converted(f: Field, value: string, fmt: Formatter): string {
    if f.conversion == None || f.conversion == Some('s') then value else fmt.quoted(f.conversion.value, value)
  }

  /** A name that is not the query's raises, and so does an unknown conversion. Of the query, indices are
      followed; a key that is no number raises; attributes and formats are the formatter's. */
  function Value(f: Field, query: string, fmt: Formatter): Option<string> {
    var h := Head(f.name, 0);
    if f.name[..h] != "query" || !ConversionOk(f) then None
    else if '.' in f.name then fmt.given(f, query)
    else
      match Indices(f.name[h..])
      case None => None
      case Some(path) =>
        match Follow(query, path)
        case None => None
        case Some(value) => if f.spec == "" then Some(Converted(f, value, fmt)) else fmt.given(f, query)
  }

  // ---- Format ----

  function Prepend(s: string, rest: Option<string>): Option<string> {
    match rest
    case None => None
    case Some(r) => Some(s + r)
  }

  function Render(segs: seq<Segment>, query: string, fmt: Formatter): Option<string>
    decreases |segs|
  {
    if segs == [] then Some("")
    else
      var rest := Render(segs[1..], query, fmt);
      match segs[0]
      case Text(s) => Prepend(s, rest)
      case Replaced(f) =>
        match Value(f, query, fmt)
        case None => None
        case Some(s) => Prepend(s, rest)
  }

  /** `t.format(query=query)`; `None`: it raises. */
  function Fill(t: string, query: string, fmt: Formatter): Option<string> {
    match Scan(t, 0)
    case None => None
    case Some(segs) => Render(segs, query, fmt)
  }

  // ---- When it raises ----

  lemma {:induction false} RenderFailsIff(segs: seq<Segment>, query: string, fmt: Formatter)
    ensures Render(segs, query, fmt) == None
       <==> exists i :: 0 <= i < |segs| && segs[i].Replaced? && Value(segs[i].field, query, fmt) == None
    decreases |segs|
  {
    if segs != [] {
      RenderFailsIff(segs[1..], query, fmt);
      if i :| 0 <= i < |segs| && segs[i].Replaced? && Value(segs[i].field, query, fmt) == None {
        if i > 0 {
          assert segs[1..][i - 1] == segs[i];
        }
      }
      if Render(segs[1..], query, fmt) == None {
        var j :| 0 <= j < |segs[1..]| && segs[1..][j].Replaced? && Value(segs[1..][j].field, query, fmt) == None;
        assert segs[j + 1] == segs[1..][j];
      }
    }
  }

  /** `format` raises exactly when the template does not scan, or one of its fields raises. */
  lemma FillFailsIff(t: string, query: string, fmt: Formatter)
    ensures Fill(t, query, fmt) == None
       <==> Scan(t, 0) == None
            || exists i :: (&& 0 <= i < |Scan(t, 0).value| && Scan(t, 0).value[i].Replaced?
                            && Value(Scan(t, 0).value[i].field, query, fmt) == None)
  {
    if Scan(t, 0).Some? {
      RenderFailsIff(Scan(t, 0).value, query, fmt);
    }
  }

  /** Indices can be followed exactly when the query is long enough for the first, and all later ones
      are 0. */
  lemma {:induction false} FollowIff(value: string, path: seq<nat>)
    ensures Follow(value, path).Some?
       <==> path == [] || (path[0] < |value| && forall i :: 1 <= i < |path| ==> path[i] == 0)
    decreases |path|
  {
    if path != [] && path[0] < |value| {
      var rest := path[1..];
      FollowIff([value[path[0]]], rest);
      assert forall i :: 0 <= i < |rest| ==> rest[i] == path[i + 1];
    }
  }

  // ---- What it gives, from an index on ----

  predicate IsBrace(c: char) { c == '{' || c == '}' }

  predicate BraceFree(s: string) {
    '{' !in s && '}' !in s
  }

  function From(t: string, i: nat, query: string, fmt: Formatter): Option<string> {
    match Scan(t, i)
    case None => None
    case Some(segs) => Render(segs, query, fmt)
  }

  lemma FromChar(t: string, i: nat, query: string, fmt: Formatter)
    requires i < |t| && !IsBrace(t[i])
    ensures From(t, i, query, fmt) == Prepend([t[i]], From(t, i + 1, query, fmt))
  {
    if Scan(t, i + 1).Some? {
      assert ([Text([t[i]])] + Scan(t, i + 1).value)[1..] == Scan(t, i + 1).value;
    }
  }

  lemma FromDouble(t: string, i: nat, query: string, fmt: Formatter)
    requires i + 1 < |t| && IsBrace(t[i]) && t[i + 1] == t[i]
    ensures From(t, i, query, fmt) == Prepend([t[i]], From(t, i + 2, query, fmt))
  {
    if Scan(t, i + 2).Some? {
      assert ([Text([t[i]])] + Scan(t, i + 2).value)[1..] == Scan(t, i + 2).value;
    }
  }

  lemma FromField(t: string, i: nat, query: string, fmt: Formatter)
    requires i < |t| && t[i] == '{' && !(i + 1 < |t| && t[i + 1] == '{')
    ensures match FieldAt(t, i + 1)
            case None => From(t, i, query, fmt) == None
            case Some((f, end)) =>
              From(t, i, query, fmt)
              == match Value(f, query, fmt)
                 case None => None
                 case Some(v) => Prepend(v, From(t, end, query, fmt))
  {
    if FieldAt(t, i + 1).Some? {
      var (f, end) := FieldAt(t, i + 1).value;
      if Scan(t, end).Some? {
        assert ([Replaced(f)] + Scan(t, end).value)[1..] == Scan(t, end).value;
      }
    }
  }

  /** Text without braces is copied. */
  lemma {:induction false} FromText(t: string, i: nat, j: nat, query: string, fmt: Formatter)
    requires i <= j <= |t| && forall k :: i <= k < j ==> !IsBrace(t[k])
    ensures From(t, i, query, fmt) == Prepend(t[i..j], From(t, j, query, fmt))
    decreases j - i
  {
    if i == j {
      assert t[i..j] == "";
      if From(t, j, query, fmt).Some? {
        assert "" + From(t, j, query, fmt).value == From(t, j, query, fmt).value;
      }
    } else {
      FromChar(t, i, query, fmt);
      FromText(t, i + 1, j, query, fmt);
      assert t[i..j] == [t[i]] + t[i + 1..j];
      if From(t, j, query, fmt).Some? {
        var r := From(t, j, query, fmt).value;
        assert [t[i]] + (t[i + 1..j] + r) == t[i..j] + r;
      }
    }
  }

  // ---- The query's own field ----

  const QUERY := "{query}"

  lemma {:induction false} NameThrough(t: string, i: nat, j: nat, inBrackets: bool)
    requires i <= j <= |t|
    requires forall k :: i <= k < j ==>
               t[k] != ']' && (inBrackets || (!IsBrace(t[k]) && t[k] != '[' && t[k] != ':' && t[k] != '!'))
    ensures NameEnd(t, i, inBrackets) == NameEnd(t, j, inBrackets)
    decreases j - i
  {
    if i < j {
      NameThrough(t, i + 1, j, inBrackets);
    }
  }

  lemma {:induction false} HeadThrough(name: string, i: nat, j: nat)
    requires i <= j <= |name| && forall k :: i <= k < j ==> name[k] != '.' && name[k] != '['
    ensures Head(name, i) == Head(name, j)
    decreases j - i
  {
    if i < j {
      HeadThrough(name, i + 1, j);
    }
  }

  /** The plain field gives the query. */
  lemma FromQuery(t: string, i: nat, query: string, fmt: Formatter)
    requires i + 7 <= |t| && t[i..i + 7] == QUERY
    ensures From(t, i, query, fmt) == Prepend(query, From(t, i + 7, query, fmt))
  {
    assert forall k :: 0 <= k < 7 ==> t[i + k] == QUERY[k] && t[i..i + 7][k] == QUERY[k];
    assert t[i] == '{' && t[i + 1] == 'q' && t[i + 6] == '}';
    forall k | i + 1 <= k < i + 6
      ensures t[k] != ']' && !IsBrace(t[k]) && t[k] != '[' && t[k] != ':' && t[k] != '!'
    {
      assert t[i + (k - i)] == QUERY[k - i];
    }
    NameThrough(t, i + 1, i + 6, false);
    assert t[i + 1..i + 6] == t[i..i + 7][1..6] == "query";
    HeadThrough("query", 0, 5);
    assert "query"[..5] == "query" && "query"[5..] == "";
    FromField(t, i, query, fmt);
  }

  /** A context without braces comes out as it is, with the query behind it. */
  lemma FillVerbatim(c: string, query: string, fmt: Formatter)
    requires BraceFree(c)
    ensures Fill(c + QUERY, query, fmt) == Some(c + query)
  {
    var t := c + QUERY;
    FromText(t, 0, |c|, query, fmt);
    assert t[|c|..|c| + 7] == QUERY && t[0..|c|] == c;
    FromQuery(t, |c|, query, fmt);
    assert From(t, |c| + 7, query, fmt) == Some("");
    assert query + "" == query;
  }

  // ---- Escapes ----

  /** `s` with every brace doubled. */
  function Escaped(s: string): string {
    if s == "" then "" else if IsBrace(s[0]) then [s[0], s[0]] + Escaped(s[1..]) else [s[0]] + Escaped(s[1..])
  }

  lemma {:induction false} EscapedFrom(t: string, pre: string, s: string, query: string, fmt: Formatter)
    requires t == pre + Escaped(s) + QUERY
    ensures From(t, |pre|, query, fmt) == Some(s + query)
    decreases |s|
  {
    var i := |pre|;
    if s == "" {
      assert t[i..i + 7] == QUERY;
      FromQuery(t, i, query, fmt);
      assert From(t, i + 7, query, fmt) == Some("") && query + "" == query && s + query == query;
    } else {
      var front := if IsBrace(s[0]) then [s[0], s[0]] else [s[0]];
      assert t == (pre + front) + Escaped(s[1..]) + QUERY;
      EscapedFrom(t, pre + front, s[1..], query, fmt);
      assert t[i] == front[0] && (IsBrace(s[0]) ==> t[i + 1] == front[1]);
      if IsBrace(s[0]) {
        FromDouble(t, i, query, fmt);
      } else {
        FromChar(t, i, query, fmt);
      }
      assert [s[0]] + (s[1..] + query) == s + query;
    }
  }

  /** Round trip: a context with its braces doubled comes out as it was, with the query behind it. */
  lemma EscapedRoundTrip(s: string, query: string, fmt: Formatter)
    ensures Fill(Escaped(s) + QUERY, query, fmt) == Some(s + query)
  {
    var t := Escaped(s) + QUERY;
    assert t == "" + Escaped(s) + QUERY;
    EscapedFrom(t, "", s, query, fmt);
  }

  // ---- Fields end before the last one ----

  lemma {:induction false} TailName(c: string, i: nat, inBrackets: bool)
    requires i <= |c|
    ensures NameEnd(c + QUERY, i, inBrackets).Some? ==> NameEnd(c + QUERY, i, inBrackets).value < |c|
    decreases |c| - i
  {
    var t := c + QUERY;
    if i < |c| {
      if inBrackets {
        TailName(c, i + 1, t[i] != ']');
      } else if !IsBrace(t[i]) && t[i] != ':' && t[i] != '!' {
        TailName(c, i + 1, t[i] == '[');
      }
    } else if inBrackets {
      forall k | |c| <= k < |t|
        ensures t[k] != ']'
      {
        assert t[k] == QUERY[k - |c|];
      }
      NameThrough(t, i, |t|, true);
    } else {
      assert t[i] == QUERY[0] == '{';
    }
  }

  lemma {:induction false} SpecThrough(t: string, i: nat, j: nat, depth: nat)
    requires i <= j <= |t| && depth > 0 && forall k :: i <= k < j ==> !IsBrace(t[k])
    ensures SpecEnd(t, i, depth) == SpecEnd(t, j, depth)
    decreases j - i
  {
    if i < j {
      SpecThrough(t, i + 1, j, depth);
    }
  }

  lemma {:induction false} TailSpec(c: string, i: nat, depth: nat)
    requires i <= |c| && depth > 0
    ensures SpecEnd(c + QUERY, i, depth).Some? ==> SpecEnd(c + QUERY, i, depth).value < |c|
    decreases |c| - i
  {
    var t := c + QUERY;
    if i < |c| {
      if t[i] == '{' {
        TailSpec(c, i + 1, depth + 1);
      } else if t[i] == '}' {
        if depth > 1 {
          TailSpec(c, i + 1, depth - 1);
        }
      } else {
        TailSpec(c, i + 1, depth);
      }
    } else {
      assert t[i] == QUERY[0] == '{' && t[i + 6] == QUERY[6] == '}';
      forall k | i + 1 <= k < i + 6
        ensures !IsBrace(t[k])
      {
        assert t[k] == QUERY[k - i];
      }
      SpecThrough(t, i + 1, i + 6, depth + 1);
      assert SpecEnd(t, i + 7, depth) == None;
    }
  }

  /** A field that starts before the last one ends before it. */
  lemma FieldStays(c: string, i: nat)
    requires i < |c|
    ensures FieldAt(c + QUERY, i + 1).Some? ==> FieldAt(c + QUERY, i + 1).value.1 <= |c|
  {
    var t := c + QUERY;
    TailName(c, i + 1, false);
    if NameEnd(t, i + 1, false).Some? {
      var n := NameEnd(t, i + 1, false).value;
      TailSpec(c, n + 1, 1);
      if n + 3 <= |c| {
        TailSpec(c, n + 3, 1);
      } else if n + 2 < |t| {
        assert t[n + 2] == QUERY[n + 2 - |c|];
        assert n + 2 - |c| <= 1;
      }
    }
  }

  lemma {:induction false} ScanThrough(t: string, i: nat, j: nat)
    requires i <= j <= |t| && (forall k :: i <= k < j ==> !IsBrace(t[k])) && Scan(t, j) == None
    ensures Scan(t, i) == None
    decreases j - i
  {
    if i < j {
      ScanThrough(t, i + 1, j);
    }
  }

  lemma LoneClose(t: string)
    requires t != "" && t[|t| - 1] == '}'
    ensures Scan(t, |t| - 1) == None
  {
  }

  /** What follows the opening brace of the last field does not scan by itself. */
  lemma QueryAloneFails(c: string)
    ensures Scan(c + QUERY, |c| + 1) == None
  {
    var t := c + QUERY;
    EndsInQuery(t, c);
    LoneClose(t);
    TailFails(t, |c|);
  }

  lemma EndsInQuery(t: string, c: string)
    requires t == c + QUERY
    ensures |t| == |c| + 7 && t[|t| - 1] == '}' && forall k :: |c| + 1 <= k < |c| + 6 ==> !IsBrace(t[k])
  {
    forall k | |c| + 1 <= k < |c| + 6
      ensures !IsBrace(t[k])
    {
      assert t[k] == QUERY[k - |c|];
    }
  }

  lemma TailFails(t: string, n: nat)
    requires |t| == n + 7 && Scan(t, n + 6) == None && forall k :: n + 1 <= k < n + 6 ==> !IsBrace(t[k])
    ensures Scan(t, n + 1) == None
  {
    ScanThrough(t, n + 1, n + 6);
  }

  // ---- A prompt with braces is not sent as it is ----

  predicate QuotesAt(s: string, part: string, a: nat) {
    a + |part| <= |s| && s[a..a + |part|] == part
  }

  ghost predicate Quotes(s: string, part: string) {
    exists a :: QuotesAt(s, part, a)
  }

  /** Of an empty query the field gives a text that quotes the field itself. */
  ghost predicate Echoes(f: Field, fmt: Formatter) {
    Value(f, "", fmt).Some? && Quotes(Value(f, "", fmt).value, "{" + f.name)
  }

  ghost predicate NoEcho(fmt: Formatter) {
    forall f :: !Echoes(f, fmt)
  }

  /** `s` is what `v` and `rest` make. */
  lemma Peel(v: string, r: Option<string>, c: string, o: nat)
    requires o <= |c| && Prepend(v, r) == Some(c[o..])
    ensures o + |v| <= |c| && r == Some(c[o + |v|..]) && v == c[o..o + |v|]
  {
    var s := c[o..];
    assert s == v + r.value;
    assert s[..|v|] == v && s[|v|..] == r.value;
    assert |s| == |c| - o;
    assert s[..|v|] == c[o..o + |v|] && s[|v|..] == c[o + |v|..];
  }

  lemma FieldSource(t: string, i: nat)
    requires i < |t| && t[i] == '{' && FieldAt(t, i + 1).Some?
    ensures var (f, end) := FieldAt(t, i + 1).value;
            i + 1 + |f.name| < end <= |t| && t[i..i + 1 + |f.name|] == "{" + f.name
  {
    var (f, end) := FieldAt(t, i + 1).value;
    assert t[i..i + 1 + |f.name|] == [t[i]] + t[i + 1..i + 1 + |f.name|];
  }

  lemma QuotesPart(s: string, o: nat, e: nat, i: nat, part: string)
    requires o <= i <= i + |part| <= e <= |s| && s[i..i + |part|] == part
    ensures Quotes(s[o..e], part)
  {
    SliceSlice(s, o, e - o, i - o, i - o + |part|);
    assert QuotesAt(s[o..e], part, i - o);
  }

  /** With an empty query the output, at `o`, never catches up with the scan, at `i`: an escape puts it back, and
      a field that made up for it would have to give a text with its own source in it. */
  lemma {:induction false} Lags(c: string, i: nat, o: nat, fmt: Formatter)
    requires NoEcho(fmt) && o <= i <= |c| && From(c + QUERY, i, "", fmt) == Some(c[o..])
    ensures o == i && BraceFree(c[i..])
    decreases |c| - i, 4
  {
    var t := c + QUERY;
    if i == |c| {
      LastIsEmpty(c, fmt);
    } else if !IsBrace(c[i]) {
      CharLags(c, i, o, fmt);
    } else if t[i + 1] == t[i] {
      DoubleLags(c, i, o, fmt);
    } else if c[i] == '{' {
      FieldLags(c, i, o, fmt);
    }
  }

  lemma CharLags(c: string, i: nat, o: nat, fmt: Formatter)
    requires NoEcho(fmt) && o <= i < |c| && !IsBrace(c[i]) && From(c + QUERY, i, "", fmt) == Some(c[o..])
    ensures o == i && BraceFree(c[i..])
    decreases |c| - i, 0
  {
    FromChar(c + QUERY, i, "", fmt);
    Peel([c[i]], From(c + QUERY, i + 1, "", fmt), c, o);
    Lags(c, i + 1, o + 1, fmt);
    assert c[i..] == [c[i]] + c[i + 1..];
  }

  lemma LastIsEmpty(c: string, fmt: Formatter)
    ensures From(c + QUERY, |c|, "", fmt) == Some("")
  {
    var t := c + QUERY;
    assert t[|c|..|c| + 7] == QUERY;
    FromQuery(t, |c|, "", fmt);
    assert From(t, |c| + 7, "", fmt) == Some("");
    assert "" + "" == "";
  }

  lemma DoubleLags(c: string, i: nat, o: nat, fmt: Formatter)
    requires NoEcho(fmt) && o <= i < |c| && IsBrace(c[i]) && (c + QUERY)[i + 1] == c[i]
    ensures From(c + QUERY, i, "", fmt) != Some(c[o..])
    decreases |c| - i, 0
  {
    FromDouble(c + QUERY, i, "", fmt);
    if From(c + QUERY, i, "", fmt) == Some(c[o..]) {
      Peel([c[i]], From(c + QUERY, i + 2, "", fmt), c, o);
      if i + 1 == |c| {
        QueryAloneFails(c);
      } else {
        Lags(c, i + 2, o + 1, fmt);
      }
    }
  }

  /** What makes up for the field covers its source. */
  lemma Covers(c: string, i: nat, o: nat, f: Field, end: nat, v: string)
    requires o <= i < end <= o + |v| <= |c| && v == c[o..o + |v|]
    requires i + 1 + |f.name| < end && (c + QUERY)[i..i + 1 + |f.name|] == "{" + f.name
    ensures Quotes(v, "{" + f.name)
  {
    assert c[i..i + 1 + |f.name|] == (c + QUERY)[i..i + 1 + |f.name|];
    QuotesPart(c, o, o + |v|, i, "{" + f.name);
  }

  lemma FieldLags(c: string, i: nat, o: nat, fmt: Formatter)
    requires NoEcho(fmt) && o <= i < |c| && c[i] == '{' && (c + QUERY)[i + 1] != '{'
    ensures From(c + QUERY, i, "", fmt) != Some(c[o..])
    decreases |c| - i, 1
  {
    var t := c + QUERY;
    FromField(t, i, "", fmt);
    FieldStays(c, i);
    if From(t, i, "", fmt) == Some(c[o..]) {
      var (f, end) := FieldAt(t, i + 1).value;
      var v := Value(f, "", fmt).value;
      Peel(v, From(t, end, "", fmt), c, o);
      FieldSource(t, i);
      CatchesUp(c, end, o + |v|, fmt);
      assert !Echoes(f, fmt);
      Covers(c, i, o, f, end, v);
    }
  }

  lemma CatchesUp(c: string, i: nat, o: nat, fmt: Formatter)
    requires NoEcho(fmt) && o <= |c| && i <= |c| && From(c + QUERY, i, "", fmt) == Some(c[o..])
    ensures o >= i
    decreases |c| - i, 5
  {
    if o <= i {
      Lags(c, i, o, fmt);
    }
  }

  /** The query is put behind the context, and the context left as it is, for every query exactly when
      the context has no braces. */
  lemma VerbatimIff(c: string, fmt: Formatter)
    requires NoEcho(fmt)
    ensures (forall query :: Fill(c + QUERY, query, fmt) == Some(c + query)) <==> BraceFree(c)
  {
    if BraceFree(c) {
      forall query
        ensures Fill(c + QUERY, query, fmt) == Some(c + query)
      {
        FillVerbatim(c, query, fmt);
      }
    } else if Fill(c + QUERY, "", fmt) == Some(c + "") {
      assert c[0..] == c && c + "" == c;
      assert Fill(c + QUERY, "", fmt) == From(c + QUERY, 0, "", fmt);
      Lags(c, 0, 0, fmt);
    }
  }

  /** A formatter that gives the field back, which no attribute of a string does. */
  const ECHO := Formatter((f: Field, q: string) => Some("{" + f.name + "}"), (c: char, q: string) => q)

  /** Without the premise the context may have braces and come out as it is. */
  lemma EchoVerbatim(query: string)
    ensures Fill("{query.x}" + QUERY, query, ECHO) == Some("{query.x}" + query)
  {
    AttributeApplies("", "x", "", query, ECHO);
    assert "{query." + "x" + "}" == "{query.x}" == "{" + ("query." + "x") + "}";
    assert "" + "{query.x}" + "" + QUERY == "{query.x}" + QUERY && "" + query == query;
    assert "" + ("{query.x}" + query) == "{query.x}" + query;
  }

  // ---- Whose fault it is when it raises ----

  /** No attribute, index or format. */
  predicate Simple(f: Field) {
    f.spec == "" && '.' !in f.name && '[' !in f.name
  }

  ghost predicate AllSimple(t: string) {
    Scan(t, 0).Some? ==>
      forall i :: 0 <= i < |Scan(t, 0).value| && Scan(t, 0).value[i].Replaced? ==> Simple(Scan(t, 0).value[i].field)
  }

  lemma SimpleValue(f: Field, query: string, fmt: Formatter)
    requires Simple(f)
    ensures Value(f, query, fmt) == None <==> f.name != "query" || !ConversionOk(f)
  {
    HeadThrough(f.name, 0, |f.name|);
    assert f.name[..|f.name|] == f.name && f.name[|f.name|..] == "";
  }

  /** With simple fields only, whether `format` raises is up to the template: no query makes a
      difference. */
  lemma SimpleFailsAlike(t: string, query: string, query': string, fmt: Formatter, fmt': Formatter)
    requires AllSimple(t)
    ensures Fill(t, query, fmt) == None <==> Fill(t, query', fmt') == None
  {
    FillFailsIff(t, query, fmt);
    FillFailsIff(t, query', fmt');
    if Scan(t, 0).Some? {
      var segs := Scan(t, 0).value;
      forall i | 0 <= i < |segs| && segs[i].Replaced?
        ensures Value(segs[i].field, query, fmt) == None <==> Value(segs[i].field, query', fmt') == None
      {
        SimpleValue(segs[i].field, query, fmt);
        SimpleValue(segs[i].field, query', fmt');
      }
    }
  }

  // ---- How long the query must be ----

  /** No attribute and no format. */
  predicate Exact(f: Field) {
    f.spec == "" && '.' !in f.name
  }

  ghost predicate AllExact(segs: seq<Segment>) {
    forall i :: 0 <= i < |segs| && segs[i].Replaced? ==> Exact(segs[i].field)
  }

  /** How long the query must be for the field; `None`: no query will do. An index is one of the query, and a
      later one of a single character. */
  function Needs(f: Field): Option<nat> {
    var h := Head(f.name, 0);
    if f.name[..h] != "query" || !ConversionOk(f) then None
    else
      match Indices(f.name[h..])
      case None => None
      case Some(path) =>
        if path == [] then Some(0)
        else if exists i :: 1 <= i < |path| && path[i] != 0 then None
        else Some(path[0] + 1)
  }

  predicate TooShort(needs: Option<nat>, query: string) {
    needs == None || |query| < needs.value
  }

  /** Without attribute and format it is known when a field raises, for any formatter. */
  lemma NeedsIff(f: Field, query: string, fmt: Formatter)
    requires Exact(f)
    ensures Value(f, query, fmt) == None <==> TooShort(Needs(f), query)
  {
    var h := Head(f.name, 0);
    if f.name[..h] == "query" && ConversionOk(f) && Indices(f.name[h..]).Some? {
      FollowIff(query, Indices(f.name[h..]).value);
    }
  }

  function Longer(a: Option<nat>, b: Option<nat>): Option<nat> {
    if a == None || b == None then None else Some(if a.value < b.value then b.value else a.value)
  }

  /** How long the query must be for all fields. */
  function AllNeed(segs: seq<Segment>): Option<nat> {
    if segs == [] then Some(0)
    else if segs[0].Replaced? then Longer(Needs(segs[0].field), AllNeed(segs[1..]))
    else AllNeed(segs[1..])
  }

  lemma {:induction false} RenderNeeds(segs: seq<Segment>, query: string, fmt: Formatter)
    requires AllExact(segs)
    ensures Render(segs, query, fmt) == None <==> TooShort(AllNeed(segs), query)
    decreases |segs|
  {
    if segs != [] {
      var rest := segs[1..];
      assert AllExact(rest) by {
        assert forall i :: 0 <= i < |rest| ==> rest[i] == segs[i + 1];
      }
      RenderNeeds(rest, query, fmt);
      if segs[0].Replaced? {
        NeedsIff(segs[0].field, query, fmt);
      }
    }
  }

  /** How long the query must be for the template. */
  function FillNeeds(t: string): Option<nat> {
    match Scan(t, 0)
    case None => None
    case Some(segs) => AllNeed(segs)
  }

  /** A template without attributes and formats raises for no query, for every query, or for exactly those that are
      too short: its text decides which. */
  lemma FillNeedsIff(t: string, query: string, fmt: Formatter)
    requires Scan(t, 0).Some? ==> AllExact(Scan(t, 0).value)
    ensures Fill(t, query, fmt) == None <==> TooShort(FillNeeds(t), query)
  {
    if Scan(t, 0).Some? {
      RenderNeeds(Scan(t, 0).value, query, fmt);
    }
  }

  // ---- A quoted index ----

  lemma {:induction false} DecimalDigits(n: nat)
    ensures forall i :: 0 <= i < |Decimal(n)| ==> IsDigit(Decimal(n)[i])
    ensures Number(Decimal(n)) == n
  {
    var s := Decimal(n);
    if n < 10 {
      assert s == [Digit(n)] && s[..0] == "";
      assert Number(s[..0]) == 0;
    } else {
      DecimalDigits(n / 10);
      assert s[..|s| - 1] == Decimal(n / 10) && s[|s| - 1] == Digit(n % 10);
    }
  }

  function Index(n: nat): string {
    "[" + Decimal(n) + "]"
  }

  lemma {:induction false} ClosingAt(s: string, i: nat, j: nat)
    requires i <= j < |s| && s[j] == ']' && forall k :: i <= k < j ==> s[k] != ']'
    ensures Closing(s, i) == j
    decreases j - i
  {
    if i < j {
      ClosingAt(s, i + 1, j);
    }
  }

  lemma IndexScans(n: nat)
    ensures Indices(Index(n)) == Some([n])
  {
    DecimalDigits(n);
    OneIndex(Index(n), Decimal(n));
  }

  lemma OneIndex(s: string, digits: string)
    requires s == "[" + digits + "]" && digits != "" && forall i :: 0 <= i < |digits| ==> IsDigit(digits[i])
    ensures Indices(s) == Some([Number(digits)])
  {
    var d := |digits|;
    assert |s| == d + 2 && s[d + 1] == ']' && s[0] == '[';
    assert forall k :: 1 <= k < d + 1 ==> s[k] == digits[k - 1] && IsDigit(s[k]);
    ClosingAt(s, 1, d + 1);
    assert s[1..d + 1] == digits && s[d + 2..] == "";
    var path: seq<nat> := [Number(digits)];
    assert Indices("") == Some([]) && path + [] == path;
  }

  lemma IndexValue(n: nat, query: string, fmt: Formatter)
    ensures Value(Field("query" + Index(n), None, ""), query, fmt)
         == if n < |query| then Some([query[n]]) else None
  {
    var name := "query" + Index(n);
    var head := "query";
    assert forall k :: 0 <= k < 5 ==> name[k] == head[k];
    assert name[5] == Index(n)[0] == '[';
    HeadThrough(name, 0, 5);
    assert name[..5] == "query" && name[5..] == Index(n);
    DecimalDigits(n);
    forall k | 0 <= k < |name|
      ensures name[k] != '.'
    {
      if k >= 5 {
        assert name[k] == Index(n)[k - 5];
        if 1 <= k - 5 < |Index(n)| - 1 {
          assert Index(n)[k - 5] == Decimal(n)[k - 6];
        }
      }
    }
    IndexScans(n);
    assert [n][1..] == [];
    if n < |query| {
      assert Follow([query[n]], []) == Some([query[n]]);
    }
  }

  function Quoted(n: nat): string {
    "{query" + Index(n) + "}"
  }

  lemma QuotedName(n: nat)
    ensures NameEnd(Quoted(n), 1, false) == Some(|Quoted(n)| - 1)
    ensures Quoted(n)[1..|Quoted(n)| - 1] == "query" + Index(n)
    ensures Quoted(n)[0] == '{' && Quoted(n)[1] == 'q' && Quoted(n)[|Quoted(n)| - 1] == '}' && |Quoted(n)| >= 9
  {
    var f := Quoted(n);
    var d := |Decimal(n)|;
    var head := "{query";
    DecimalDigits(n);
    assert |f| == d + 9 && f[6] == '[' && f[7 + d] == ']' && f[8 + d] == '}';
    assert forall k :: 0 <= k < 6 ==> f[k] == head[k];
    NameThrough(f, 1, 6, false);
    assert forall k :: 7 <= k < 7 + d ==> f[k] == Decimal(n)[k - 7];
    NameThrough(f, 7, 7 + d, true);
    assert f[1..8 + d] == "query" + Index(n);
  }

  /** A scan that ends within a part of the text does not see the rest. */
  lemma {:induction false} NameWithin(t: string, i: nat, f: string, k: nat, inBrackets: bool)
    requires i + |f| <= |t| && t[i..i + |f|] == f && k <= |f| && NameEnd(f, k, inBrackets).Some?
    ensures NameEnd(t, i + k, inBrackets) == Some(i + NameEnd(f, k, inBrackets).value)
    decreases |f| - k
  {
    assert t[i..i + |f|][k] == t[i + k];
    if inBrackets {
      NameWithin(t, i, f, k + 1, f[k] != ']');
    } else if f[k] != '}' && f[k] != ':' && f[k] != '!' {
      NameWithin(t, i, f, k + 1, f[k] == '[');
    }
  }

  /** The field with an index gives that character, if there is one. */
  lemma FromIndex(t: string, i: nat, n: nat, query: string, fmt: Formatter)
    requires i + |Quoted(n)| <= |t| && t[i..i + |Quoted(n)|] == Quoted(n)
    ensures From(t, i, query, fmt)
         == if n < |query| then Prepend([query[n]], From(t, i + |Quoted(n)|, query, fmt)) else None
  {
    var f, v := QuotedGives(t, i, n, query, fmt);
    FieldGives(t, i, f, i + |Quoted(n)|, query, fmt, v);
  }

  lemma QuotedGives(t: string, i: nat, n: nat, query: string, fmt: Formatter) returns (f: Field, v: Option<string>)
    requires i + |Quoted(n)| <= |t| && t[i..i + |Quoted(n)|] == Quoted(n)
    ensures i + 1 < |t| && t[i] == '{' && t[i + 1] != '{' && FieldAt(t, i + 1) == Some((f, i + |Quoted(n)|))
    ensures Value(f, query, fmt) == v
    ensures if n < |query| then v == Some([query[n]]) else v == None
  {
    f := Field("query" + Index(n), None, "");
    v := Value(f, query, fmt);
    QuotedField(t, i, n);
    IndexValue(n, query, fmt);
  }

  lemma FieldGives(t: string, i: nat, f: Field, end: nat, query: string, fmt: Formatter, v: Option<string>)
    requires i + 1 < |t| && t[i] == '{' && t[i + 1] != '{' && FieldAt(t, i + 1) == Some((f, end))
    requires Value(f, query, fmt) == v
    ensures From(t, i, query, fmt) == if v == None then None else Prepend(v.value, From(t, end, query, fmt))
  {
    FromField(t, i, query, fmt);
  }

  lemma QuotedField(t: string, i: nat, n: nat)
    requires i + |Quoted(n)| <= |t| && t[i..i + |Quoted(n)|] == Quoted(n)
    ensures FieldAt(t, i + 1) == Some((Field("query" + Index(n), None, ""), i + |Quoted(n)|))
    ensures i + 1 < |t| && t[i] == '{' && t[i + 1] != '{'
  {
    var f := Quoted(n);
    QuotedName(n);
    NameWithin(t, i, f, 1, false);
    assert t[i] == t[i..i + |f|][0] && t[i + 1] == t[i..i + |f|][1];
    assert t[i + |f| - 1] == t[i..i + |f|][|f| - 1];
    SliceSlice(t, i, |f|, 1, |f| - 1);
  }

  lemma TextThenQuery(t: string, e: nat, b: string, query: string, fmt: Formatter)
    requires e <= |t| && t[e..] == b + QUERY && BraceFree(b)
    ensures From(t, e, query, fmt) == Some(b + query)
  {
    var m := e + |b|;
    assert forall k :: e <= k < m ==> t[k] == t[e..][k - e] == b[k - e];
    assert t[e..m] == b;
    assert t[m..m + 7] == t[e..][|b|..|b| + 7] == QUERY;
    FromText(t, e, m, query, fmt);
    FromQuery(t, m, query, fmt);
    assert From(t, m + 7, query, fmt) == Some("");
    assert query + "" == query;
  }

  /** A context that quotes an index of the query raises for short queries, and for no others. */
  lemma IndexNeedsLength(a: string, n: nat, b: string, query: string, fmt: Formatter)
    requires BraceFree(a) && BraceFree(b)
    ensures Fill(a + Quoted(n) + b + QUERY, query, fmt)
         == if n < |query| then Some(a + ([query[n]] + (b + query))) else None
  {
    var t := a + Quoted(n) + b + QUERY;
    var i, e := |a|, |a| + |Quoted(n)|;
    assert t[0..i] == a && t[i..e] == Quoted(n) && t[e..] == b + QUERY;
    FromText(t, 0, i, query, fmt);
    FromIndex(t, i, n, query, fmt);
    TextThenQuery(t, e, b, query, fmt);
  }

  // ---- Conversions, formats and attributes ----

  predicate IsNameChar(c: char) {
    !IsBrace(c) && c != '[' && c != ']' && c != ':' && c != '!'
  }

  /** A field within a text, up to its closing brace. */
  predicate FieldIn(t: string, i: nat, field: string) {
    |field| >= 2 && i + |field| <= |t| && t[i..i + |field|] == field && field[0] == '{' && field[1] != '{'
  }

  lemma CharsIn(t: string, i: nat, field: string)
    requires FieldIn(t, i, field)
    ensures forall k :: 0 <= k < |field| ==> t[i + k] == field[k]
    ensures forall a, b :: 0 <= a <= b <= |field| ==> t[i + a..i + b] == field[a..b]
  {
    assert forall k :: 0 <= k < |field| ==> field[k] == t[i..i + |field|][k];
    forall a, b | 0 <= a <= b <= |field|
      ensures t[i + a..i + b] == field[a..b]
    {
      SliceSlice(t, i, |field|, a, b);
    }
  }

  /** The name ends where the field says. */
  lemma NameIn(t: string, i: nat, field: string, n: nat)
    requires FieldIn(t, i, field) && 1 <= n < |field| && (field[n] == '}' || field[n] == ':' || field[n] == '!')
    requires forall k :: 1 <= k < n ==> IsNameChar(field[k])
    ensures NameEnd(t, i + 1, false) == Some(i + n) && t[i + 1..i + n] == field[1..n]
    ensures t[i] == '{' && t[i + 1] == field[1] && t[i + n] == field[n]
  {
    CharsIn(t, i, field);
    forall k | i + 1 <= k < i + n
      ensures IsNameChar(t[k])
    {
      assert t[i + (k - i)] == field[k - i];
    }
    NameThrough(t, i + 1, i + n, false);
  }

  lemma ConvertedField(t: string, i: nat, conv: char)
    requires FieldIn(t, i, "{query!" + [conv] + "}")
    ensures FieldAt(t, i + 1) == Some((Field("query", Some(conv), ""), i + 9))
    ensures t[i] == '{' && t[i + 1] != '{'
  {
    var field := "{query!" + [conv] + "}";
    assert |field| == 9 && field[6] == '!' && field[7] == conv && field[8] == '}' && field[1..6] == "query";
    CharsIn(t, i, field);
    NameIn(t, i, field, 6);
    assert t[i + 7] == conv && t[i + 8] == '}';
  }

  lemma QueryHead()
    ensures Head("query", 0) == 5 && "query"[..5] == "query" && "query"[5..] == "" && '.' !in "query"
  {
    HeadThrough("query", 0, 5);
  }

  /** What a conversion makes of the query: `s` nothing else, `r` and `a` what they make of a string, and any other
      raises. */
  lemma ConversionApplies(a: string, conv: char, b: string, query: string, fmt: Formatter)
    requires BraceFree(a) && BraceFree(b)
    ensures Fill(a + ("{query!" + [conv] + "}") + b + QUERY, query, fmt)
         == if conv == 's' then Some(a + (query + (b + query)))
            else if conv == 'r' || conv == 'a' then Some(a + (fmt.quoted(conv, query) + (b + query)))
            else None
  {
    var field := "{query!" + [conv] + "}";
    var t := a + field + b + QUERY;
    FieldIsIn(a, field, b);
    ConvertedField(t, |a|, conv);
    QueryHead();
    AroundField(a, field, b, Field("query", Some(conv), ""), query, fmt);
  }

  lemma FieldIsIn(a: string, field: string, b: string)
    requires |field| >= 2 && field[0] == '{' && field[1] != '{'
    ensures FieldIn(a + field + b + QUERY, |a|, field)
  {
    assert (a + field + b + QUERY)[|a|..|a| + |field|] == field;
  }

  /** One field in a text without other braces. */
  lemma AroundField(a: string, field: string, b: string, f: Field, query: string, fmt: Formatter)
    requires BraceFree(a) && BraceFree(b) && |field| >= 2 && field[0] == '{' && field[1] != '{'
    requires FieldAt(a + field + b + QUERY, |a| + 1) == Some((f, |a| + |field|))
    ensures Fill(a + field + b + QUERY, query, fmt)
         == match Value(f, query, fmt)
            case None => None
            case Some(v) => Some(a + (v + (b + query)))
  {
    var t := a + field + b + QUERY;
    var i, e := |a|, |a| + |field|;
    assert t[0..i] == a && t[e..] == b + QUERY && t[i] == '{' && t[i + 1] == field[1];
    FromText(t, 0, i, query, fmt);
    FieldGives(t, i, f, e, query, fmt, Value(f, query, fmt));
    TextThenQuery(t, e, b, query, fmt);
  }

  /** A format, or an attribute, of the query is the formatter's, for the field as it is written and the query. */
  lemma FormatApplies(a: string, spec: string, b: string, query: string, fmt: Formatter)
    requires BraceFree(a) && BraceFree(b) && BraceFree(spec) && spec != ""
    ensures Fill(a + ("{query:" + spec + "}") + b + QUERY, query, fmt)
         == match fmt.given(Field("query", None, spec), query)
            case None => None
            case Some(v) => Some(a + (v + (b + query)))
  {
    var field := "{query:" + spec + "}";
    var f := Field("query", None, spec);
    FieldIsIn(a, field, b);
    SpecField(a + field + b + QUERY, |a|, spec);
    SpecValue(spec, query, fmt);
    AroundField(a, field, b, f, query, fmt);
  }

  lemma SpecValue(spec: string, query: string, fmt: Formatter)
    requires spec != ""
    ensures var f := Field("query", None, spec); Value(f, query, fmt) == fmt.given(f, query)
  {
    QueryHead();
    assert Indices("") == Some([]) && Follow(query, []) == Some(query);
  }

  lemma SpecField(t: string, i: nat, spec: string)
    requires FieldIn(t, i, "{query:" + spec + "}") && BraceFree(spec)
    ensures FieldAt(t, i + 1) == Some((Field("query", None, spec), i + 8 + |spec|))
  {
    var field := "{query:" + spec + "}";
    var n := |spec|;
    assert |field| == 8 + n && field[6] == ':' && field[7 + n] == '}';
    assert field[1..6] == "query" && field[7..7 + n] == spec;
    CharsIn(t, i, field);
    NameIn(t, i, field, 6);
    forall k | i + 7 <= k < i + 7 + n
      ensures !IsBrace(t[k])
    {
      assert t[i + (k - i)] == field[k - i] == spec[k - i - 7];
    }
    SpecThrough(t, i + 7, i + 7 + n, 1);
    assert t[i + 7 + n] == '}';
  }

  lemma AttributeApplies(a: string, attribute: string, b: string, query: string, fmt: Formatter)
    requires BraceFree(a) && BraceFree(b) && forall k :: 0 <= k < |attribute| ==> IsNameChar(attribute[k])
    ensures Fill(a + ("{query." + attribute + "}") + b + QUERY, query, fmt)
         == match fmt.given(Field("query." + attribute, None, ""), query)
            case None => None
            case Some(v) => Some(a + (v + (b + query)))
  {
    var field, name := "{query." + attribute + "}", "query." + attribute;
    FieldIsIn(a, field, b);
    AttributeField(a + field + b + QUERY, |a|, attribute);
    AttributeValue(attribute, query, fmt);
    AroundField(a, field, b, Field(name, None, ""), query, fmt);
  }

  lemma AttributeValue(attribute: string, query: string, fmt: Formatter)
    ensures var f := Field("query." + attribute, None, ""); Value(f, query, fmt) == fmt.given(f, query)
  {
    var name := "query." + attribute;
    assert name[5] == '.' && name[..5] == "query";
    HeadThrough(name, 0, 5);
    assert '.' in name;
  }

  lemma AttributeField(t: string, i: nat, attribute: string)
    requires FieldIn(t, i, "{query." + attribute + "}") && forall k :: 0 <= k < |attribute| ==> IsNameChar(attribute[k])
    ensures FieldAt(t, i + 1) == Some((Field("query." + attribute, None, ""), i + 8 + |attribute|))
  {
    var field, name := "{query." + attribute + "}", "query." + attribute;
    var n := |attribute|;
    assert |field| == 8 + n && field[7 + n] == '}' && field[1..7 + n] == name;
    forall k | 1 <= k < 7 + n
      ensures IsNameChar(field[k])
    {
      assert field[k] == name[k - 1] && (k >= 7 ==> name[k - 1] == attribute[k - 7]);
    }
    NameIn(t, i, field, 7 + n);
  }
}
