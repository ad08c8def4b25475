/** The string operations of Python that the modules use. */
module Strings {

  /** White space, as both `str.strip` and `\s` take it. */
  predicate IsSpace(c: char) {
    var n := c as int;
    || 9 <= n <= 13 || 28 <= n <= 32 || n == 0x85 || n == 0xA0 || n == 0x1680
    || 0x2000 <= n <= 0x200A || n == 0x2028 || n == 0x2029 || n == 0x202F || n == 0x205F || n == 0x3000
  }

  /** In ASCII: the blank, the tab, the line breaks and feeds, and the four separators. */
  lemma AsciiSpaces(c: char)
    requires c as int < 128
    ensures IsSpace(c) <==> c in [' ', '\t', '\n', '\r', 11 as char, 12 as char] || 28 <= c as int <= 31
  {
  }

  function LStrip(s: string): string {
    if s != "" && IsSpace(s[0]) then LStrip(s[1..]) else s
  }

  function RStrip(s: string): string {
    if s != "" && IsSpace(s[|s| - 1]) then RStrip(s[..|s| - 1]) else s
  }

  function Strip(s: string): string { RStrip(LStrip(s)) }

  lemma {:induction false} LStripSpan(s: string) returns (a: nat)
    ensures a <= |s| && LStrip(s) == s[a..]
    ensures forall i :: 0 <= i < a ==> IsSpace(s[i])
  {
    if s != "" && IsSpace(s[0]) {
      a := LStripSpan(s[1..]);
      assert forall i :: 1 <= i < a + 1 ==> s[i] == s[1..][i - 1];
      a := a + 1;
    } else {
      a := 0;
    }
  }

  lemma {:induction false} RStripSpan(s: string) returns (b: nat)
    ensures b <= |s| && RStrip(s) == s[..b]
    ensures forall i :: b <= i < |s| ==> IsSpace(s[i])
  {
    if s != "" && IsSpace(s[|s| - 1]) {
      b := RStripSpan(s[..|s| - 1]);
    } else {
      b := |s|;
    }
  }

  /** Stripping takes white space off both ends and nothing else. */
  lemma StripSpan(s: string) returns (a: nat, b: nat)
    ensures a <= b <= |s| && Strip(s) == s[a..b]
    ensures forall i :: 0 <= i < |s| && !IsSpace(s[i]) ==> a <= i < b
  {
    a := LStripSpan(s);
    b := RStripSpan(s[a..]);
    assert forall i :: a + b <= i < |s| ==> s[i] == s[a..][i - a];
    b := a + b;
  }

  // ---- Slices ----

  lemma SliceSlice(text: string, off: nat, n: nat, a: nat, b: nat)
    requires off + n <= |text| && a <= b <= n
    ensures text[off..off + n][a..b] == text[off + a..off + b]
  {
    var l, r := text[off..off + n][a..b], text[off + a..off + b];
    forall i | 0 <= i < b - a
      ensures l[i] == r[i]
    {
      assert l[i] == text[off..off + n][a + i] == text[off + (a + i)];
    }
  }

  // ---- Splitting and joining ----

  function Join(sep: string, parts: seq<string>): string {
    if parts == [] then "" else if |parts| == 1 then parts[0] else parts[0] + sep + Join(sep, parts[1..])
  }

  /** Each part comes after the ones before it and the separator. */
  lemma {:induction false} JoinSnoc(sep: string, parts: seq<string>, last: string)
    ensures Join(sep, parts + [last]) == if parts == [] then last else Join(sep, parts) + sep + last
  {
    if parts == [] {
      assert parts + [last] == [last];
    } else {
      JoinSnoc(sep, parts[1..], last);
      assert (parts + [last])[1..] == parts[1..] + [last];
    }
  }

  /** `s.split("\n")`: never empty. */
  function Lines(s: string): (r: seq<string>)
    ensures |r| >= 1
  {
    if s == "" then [""]
    else if s[0] == '\n' then [""] + Lines(s[1..])
    else var rest := Lines(s[1..]); [[s[0]] + rest[0]] + rest[1..]
  }

  lemma {:induction false} JoinLines(s: string)
    ensures Join("\n", Lines(s)) == s
  {
    if s != "" {
      JoinLines(s[1..]);
      var rest := Lines(s[1..]);
      if s[0] == '\n' {
        assert ([""] + rest)[1..] == rest;
      } else {
        assert ([[s[0]] + rest[0]] + rest[1..])[1..] == rest[1..];
      }
    }
  }

  predicate OneLine(s: string) {
    '\n' !in s
  }

  /** A first line without line breaks is split off whole. */
  lemma {:induction false} LinesAfterFirst(first: string, rest: string)
    requires OneLine(first)
    ensures Lines(first + "\n" + rest) == [first] + Lines(rest)
  {
    var s := first + "\n" + rest;
    if first == "" {
      assert s[1..] == rest;
    } else {
      assert s[1..] == first[1..] + "\n" + rest;
      LinesAfterFirst(first[1..], rest);
      assert [first[0]] + first[1..] == first;
    }
  }

  lemma {:induction false} LinesOfOne(s: string)
    requires OneLine(s)
    ensures Lines(s) == [s]
  {
    if s != "" {
      LinesOfOne(s[1..]);
      assert [s[0]] + s[1..] == s;
    }
  }

  /** A last line without line breaks is split off whole. */
  lemma {:induction false} LinesBeforeLast(body: string, last: string)
    requires OneLine(last)
    ensures Lines(body + "\n" + last) == Lines(body) + [last]
  {
    var s := body + "\n" + last;
    if body == "" {
      assert s[1..] == last;
      LinesOfOne(last);
    } else {
      assert s[1..] == body[1..] + "\n" + last;
      LinesBeforeLast(body[1..], last);
    }
  }

  /** The first line, and what follows its line break. */
  lemma {:induction false} SplitFirst(s: string) returns (first: string, rest: string)
    requires !OneLine(s)
    ensures OneLine(first) && s == first + "\n" + rest
  {
    if s[0] == '\n' {
      first, rest := "", s[1..];
    } else {
      first, rest := SplitFirst(s[1..]);
      first := [s[0]] + first;
    }
  }

  /** The last line, and what precedes its line break. */
  lemma {:induction false} SplitLast(s: string) returns (front: string, last: string)
    requires !OneLine(s)
    ensures OneLine(last) && s == front + "\n" + last
  {
    var n := |s| - 1;
    if s[n] == '\n' {
      front, last := s[..n], "";
    } else {
      front, last := SplitLast(s[..n]);
      last := last + [s[n]];
    }
  }

  // ---- Numbers ----

  function Digit(d: nat): char
    requires d < 10
  {
    '0' + d as char
  }

  function Decimal(n: nat): (s: string)
    ensures |s| >= 1 && (forall i :: 0 <= i < |s| ==> '0' <= s[i] <= '9')
  {
    if n < 10 then [Digit(n)] else Decimal(n / 10) + [Digit(n % 10)]
  }

  lemma {:induction false} DecimalInjective(m: nat, n: nat)
    requires Decimal(m) == Decimal(n)
    ensures m == n
  {
    var s := Decimal(m);
    assert s[|s| - 1] == Digit(m % 10) == Digit(n % 10);
    if m >= 10 && n >= 10 {
      assert Decimal(m / 10) == s[..|s| - 1] == Decimal(n / 10);
      DecimalInjective(m / 10, n / 10);
    }
  }
}
