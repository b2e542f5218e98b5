/** The parts of the .NET string library the generator relies on:
    string.Join, String.TrimEnd(';'), case-insensitive comparison,
    Environment.NewLine and an append-only StringBuilder. */
module Text {

  /** Environment.NewLine, fixed here to a single line feed. */
  const NewLine: string := "\n"

  /** ASCII lower-casing; the culture-aware foldings of the source are
      modelled by this one folding. */
  function ToLower(c: char): char
  {
    if 'A' <= c <= 'Z' then (c as int - 'A' as int + 'a' as int) as char else c
  }

  /** The string with every letter lower-cased. */
  function LowerCase(s: string): (r: string)
    ensures |r| == |s|
    ensures forall i :: 0 <= i < |s| ==> r[i] == ToLower(s[i])
  {
    seq(|s|, i requires 0 <= i < |s| => ToLower(s[i]))
  }

  /** String.Equals(a, b, ...IgnoreCase), compared character by character:
      the same as comparing the lower-cased strings. */
  function EqualsIgnoreCase(a: string, b: string): (r: bool)
    ensures r <==> LowerCase(a) == LowerCase(b)
    ensures a == b ==> r
  {
    var r := |a| == |b| && forall i :: 0 <= i < |a| ==> ToLower(a[i]) == ToLower(b[i]);
    assert r ==> LowerCase(a) == LowerCase(b);
    assert LowerCase(a) == LowerCase(b) ==>
             (|a| == |b| && forall i :: 0 <= i < |a| ==> LowerCase(a)[i] == LowerCase(b)[i]);
    r
  }

  /** What StringBuilder.AppendLine(s) adds. */
  function Line(s: string): string
  {
    s + NewLine
  }

  /** string.Join(sep, xs): empty for no strings, starting with the first
      one otherwise, and made only of the strings' and the separator's
      characters. */
  function Join(sep: string, xs: seq<string>): (r: string)
    ensures |xs| == 0 ==> r == ""
    ensures |xs| >= 1 ==> xs[0] <= r
    ensures forall c :: c in r ==> c in sep || exists i :: 0 <= i < |xs| && c in xs[i]
  {
    if |xs| == 0 then ""
    else if |xs| == 1 then xs[0]
    else xs[0] + sep + Join(sep, xs[1..])
  }

  /** String.TrimEnd(';'): drops every trailing semicolon. */
  function TrimEndSemicolons(s: string): (r: string)
    ensures r <= s
    ensures |r| == 0 || r[|r| - 1] != ';'
    ensures forall k :: |r| <= k < |s| ==> s[k] == ';'
    decreases |s|
  {
    if |s| > 0 && s[|s| - 1] == ';' then TrimEndSemicolons(s[..|s| - 1]) else s
  }

  /** The three properties of TrimEndSemicolons determine its result:
      the longest prefix not ending in ';' that leaves only ';' behind. */
  lemma TrimEndSemicolonsUnique(s: string, t: string)
    requires t <= s
    requires |t| == 0 || t[|t| - 1] != ';'
    requires forall k :: |t| <= k < |s| ==> s[k] == ';'
    ensures t == TrimEndSemicolons(s)
  {
  }

  /** Splits a string at every ", " (a reading of Join(", ", ·)). */
  function Fields(s: string): (r: seq<string>)
    ensures |r| >= 1
    decreases |s|
  {
    if |s| == 0 then [""]
    else if |s| >= 2 && s[0] == ',' && s[1] == ' ' then [""] + Fields(s[2..])
    else
      var rest := Fields(s[1..]);
      [[s[0]] + rest[0]] + rest[1..]
  }

  lemma {:induction false} FieldsOfCommaFree(x: string)
    requires ',' !in x
    ensures Fields(x) == [x]
    decreases |x|
  {
    if |x| > 0 {
      assert x[0] != ',';
      FieldsOfCommaFree(x[1..]);
      assert [x[0]] + x[1..] == x;
    }
  }

  lemma {:induction false} FieldsOfSeparated(x: string, rest: string)
    requires ',' !in x
    ensures Fields(x + ", " + rest) == [x] + Fields(rest)
    decreases |x|
  {
    var s := x + ", " + rest;
    if |x| == 0 {
      assert s == ", " + rest;
      assert s[2..] == rest;
    } else {
      assert x[0] != ',';
      assert s[0] == x[0];
      assert s[1..] == x[1..] + ", " + rest;
      FieldsOfSeparated(x[1..], rest);
      assert [x[0]] + x[1..] == x;
    }
  }

  /** Fields undoes Join(", ", ·) on a non-empty list of comma-free strings. */
  lemma {:induction false} FieldsOfJoin(xs: seq<string>)
    requires |xs| >= 1
    requires forall i :: 0 <= i < |xs| ==> ',' !in xs[i]
    ensures Fields(Join(", ", xs)) == xs
  {
    if |xs| == 1 {
      FieldsOfCommaFree(xs[0]);
    } else {
      FieldsOfSeparated(xs[0], Join(", ", xs[1..]));
      FieldsOfJoin(xs[1..]);
      assert [xs[0]] + xs[1..] == xs;
    }
  }

  /** Lets a text built by successive appends be regrouped. */
  lemma AppendAssociative(a: string, b: string, c: string)
    ensures a + b + c == a + (b + c)
  {
  }

  /** Number of occurrences of c in s. */
  function Count(s: string, c: char): nat
  {
    if |s| == 0 then 0 else (if s[0] == c then 1 else 0) + Count(s[1..], c)
  }

  lemma {:induction false} CountAppend(a: string, b: string, c: char)
    ensures Count(a + b, c) == Count(a, c) + Count(b, c)
  {
    if |a| > 0 {
      assert (a + b)[1..] == a[1..] + b;
      CountAppend(a[1..], b, c);
    } else {
      assert a + b == b;
    }
  }

  lemma {:induction false} CountAbsent(s: string, c: char)
    requires c !in s
    ensures Count(s, c) == 0
  {
    if |s| > 0 {
      CountAbsent(s[1..], c);
    }
  }

  /** System.Text.StringBuilder, reduced to the text it has accumulated. */
  class StringBuilder {
    var text: string

    constructor ()
      ensures text == ""
    {
      text := "";
    }

    method Append(s: string)
      modifies this
      ensures text == old(text) + s
    {
      text := text + s;
    }

    method AppendLine(s: string)
      modifies this
      ensures text == old(text) + Line(s)
    {
      text := text + Line(s);
    }
  }
}
