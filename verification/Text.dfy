/** Python's string operations: find, partition, split, strip, and decimal numbers. */
module Text {

  function IndexOf(s: string, c: char): (i: nat)
    ensures i <= |s| && (forall k | 0 <= k < i :: s[k] != c) && (i < |s| ==> s[i] == c)
    decreases |s|
  {
    if s == [] || s[0] == c then 0 else 1 + IndexOf(s[1..], c)
  }

  lemma IndexIs(s: string, c: char, i: nat)
    requires i < |s| && s[i] == c && c !in s[..i]
    ensures IndexOf(s, c) == i
  {
    assert forall k | 0 <= k < i :: s[k] in s[..i];
  }

  lemma NoIndex(s: string, c: char)
    requires c !in s
    ensures IndexOf(s, c) == |s|
  {}

  /** `s.split(c)`. */
  function SplitOn(s: string, c: char): (parts: seq<string>)
    ensures |parts| >= 1
    decreases |s|
  {
    var i := IndexOf(s, c);
    if i == |s| then [s] else [s[..i]] + SplitOn(s[i + 1..], c)
  }

  lemma SplitOne(s: string, c: char)
    requires c !in s
    ensures SplitOn(s, c) == [s]
  {
    NoIndex(s, c);
  }

  lemma SplitFirst(first: string, c: char, rest: string)
    requires c !in first
    ensures SplitOn(first + [c] + rest, c) == [first] + SplitOn(rest, c)
  {
    var s := first + [c] + rest;
    assert s[..|first|] == first && s[|first| + 1..] == rest && s[|first|] == c;
    IndexIs(s, c, |first|);
  }

  lemma SplitTwo(a: string, c: char, b: string)
    requires c !in a && c !in b
    ensures SplitOn(a + [c] + b, c) == [a, b]
  {
    SplitFirst(a, c, b);
    SplitOne(b, c);
  }

  // ---------------------------------------------------------------------------
  // White space.

  predicate IsSpace(c: char) {
    || c == ' ' || '\t' <= c <= '\r' || '\U{1C}' <= c <= '\U{1F}' || c == '\U{85}' || c == '\U{A0}'
    || c == '\U{1680}' || '\U{2000}' <= c <= '\U{200A}' || c == '\U{2028}' || c == '\U{2029}'
    || c == '\U{202F}' || c == '\U{205F}' || c == '\U{3000}'
  }

  function LStrip(s: string): (r: string)
    ensures r == "" || !IsSpace(r[0])
    decreases |s|
  {
    if s != "" && IsSpace(s[0]) then LStrip(s[1..]) else s
  }

  function RStrip(s: string): (r: string)
    ensures r == "" || !IsSpace(r[|r| - 1])
    decreases |s|
  {
    if s != "" && IsSpace(s[|s| - 1]) then RStrip(s[..|s| - 1]) else s
  }

  function Strip(s: string): string { RStrip(LStrip(s)) }

  /** Nothing to strip. */
  predicate Trim(s: string) { s == "" || (!IsSpace(s[0]) && !IsSpace(s[|s| - 1])) }

  lemma StripTrim(s: string)
    requires Trim(s)
    ensures Strip(s) == s
  {}

  // ---------------------------------------------------------------------------
  // Decimal numbers.

  predicate IsDigit(c: char) { '0' <= c <= '9' }

  predicate Digits(s: string) { s != "" && forall i | 0 <= i < |s| :: IsDigit(s[i]) }

  function ParseNat(s: string): nat
    requires Digits(s)
    decreases |s|
  {
    var last := (s[|s| - 1] - '0') as nat;
    if |s| == 1 then last else 10 * ParseNat(s[..|s| - 1]) + last
  }

  function PrintNat(n: nat): (s: string)
    ensures Digits(s)
  {
    var last := [('0' as int + n % 10) as char];
    if n < 10 then last else PrintNat(n / 10) + last
  }

  lemma {:induction false} PrintThenParseNat(n: nat)
    ensures ParseNat(PrintNat(n)) == n
    decreases n
  {
    var s := PrintNat(n);
    if n >= 10 {
      PrintThenParseNat(n / 10);
      assert s[..|s| - 1] == PrintNat(n / 10);
    }
  }
}
