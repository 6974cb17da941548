/** The YAML writer, the line-scanning reader paired with it, and when the reader gives back what was written. */
module YamlScalars {
  import opened Basics
  import opened Text

  /** `Bare` is the text of a number, a boolean or null. */
  datatype Value =
    | Str(text: string)
    | Bare(text: string)
    | Map(entries: seq<Entry>)
    | List(items: seq<Value>)

  datatype Entry = Entry(key: string, value: Value)

  // ---------------------------------------------------------------------------
  // Escaping: two global replacements out, two back.

  function DoubleBackslashes(s: string): string
    decreases |s|
  {
    if s == "" then "" else (if s[0] == '\\' then "\\\\" else [s[0]]) + DoubleBackslashes(s[1..])
  }

  function EscapeQuotes(s: string): string
    decreases |s|
  {
    if s == "" then "" else (if s[0] == '"' then "\\\"" else [s[0]]) + EscapeQuotes(s[1..])
  }

  function Escape(s: string): string { EscapeQuotes(DoubleBackslashes(s)) }

  function UnescapeQuotes(s: string): string
    decreases |s|
  {
    if s == "" then ""
    else if |s| >= 2 && s[0] == '\\' && s[1] == '"' then ['"'] + UnescapeQuotes(s[2..])
    else [s[0]] + UnescapeQuotes(s[1..])
  }

  function HalveBackslashes(s: string): string
    decreases |s|
  {
    if s == "" then ""
    else if |s| >= 2 && s[0] == '\\' && s[1] == '\\' then ['\\'] + HalveBackslashes(s[2..])
    else [s[0]] + HalveBackslashes(s[1..])
  }

  function Unescape(s: string): string { HalveBackslashes(UnescapeQuotes(s)) }

  lemma {:induction false} QuotesBack(s: string)
    ensures UnescapeQuotes(EscapeQuotes(s)) == s
    decreases |s|
  {
    if s != "" {
      var rest := EscapeQuotes(s[1..]);
      QuotesBack(s[1..]);
      if s[0] == '"' {
        assert ("\\\"" + rest)[2..] == rest;
      } else {
        assert ([s[0]] + rest)[1..] == rest;
        assert rest != "" ==> rest[0] != '"';
      }
    }
  }

  lemma {:induction false} BackslashesBack(s: string)
    ensures HalveBackslashes(DoubleBackslashes(s)) == s
    decreases |s|
  {
    if s != "" {
      var rest := DoubleBackslashes(s[1..]);
      BackslashesBack(s[1..]);
      if s[0] == '\\' { assert ("\\\\" + rest)[2..] == rest; } else { assert ([s[0]] + rest)[1..] == rest; }
    }
  }

  /** For every run of backslashes and quotes the two replacements of the reader undo the two of the writer. */
  lemma EscapeRoundTrip(s: string)
    ensures Unescape(Escape(s)) == s
  {
    QuotesBack(DoubleBackslashes(s));
    BackslashesBack(s);
  }

  // ---------------------------------------------------------------------------
  // Lines.

  predicate IsBreak(c: char) {
    || '\n' <= c <= '\r' || '\U{1C}' <= c <= '\U{1E}' || c == '\U{85}' || c == '\U{2028}' || c == '\U{2029}'
  }

  predicate OneLine(s: string) { forall c | c in s :: !IsBreak(c) }

  function FirstBreak(s: string): (i: nat)
    ensures i <= |s| && (forall k | 0 <= k < i :: !IsBreak(s[k])) && (i < |s| ==> IsBreak(s[i]))
    decreases |s|
  {
    if s == "" || IsBreak(s[0]) then 0 else 1 + FirstBreak(s[1..])
  }

  /** `str.splitlines`. */
  function SplitLines(s: string): seq<string>
    decreases |s|
  {
    var i := FirstBreak(s);
    if i == |s| then if s == "" then [] else [s]
    else
      var step := if s[i] == '\r' && i + 1 < |s| && s[i + 1] == '\n' then 2 else 1;
      [s[..i]] + SplitLines(s[i + step..])
  }

  function JoinLines(lines: seq<string>): string
    decreases |lines|
  {
    if lines == [] then "" else if |lines| == 1 then lines[0] else lines[0] + "\n" + JoinLines(lines[1..])
  }

  lemma FirstBreakIs(line: string, rest: string)
    requires OneLine(line) && rest != "" && IsBreak(rest[0])
    ensures FirstBreak(line + rest) == |line|
  {
    var s := line + rest;
    assert s[|line|] == rest[0] && forall k | 0 <= k < |line| :: s[k] in line;
  }

  lemma SplitFirstLine(line: string, rest: string)
    requires OneLine(line)
    ensures SplitLines(line + "\n" + rest) == [line] + SplitLines(rest)
  {
    var s := line + "\n" + rest;
    assert s == line + ("\n" + rest);
    FirstBreakIs(line, "\n" + rest);
    assert s[..|line|] == line && s[|line|] == '\n' && s[|line| + 1..] == rest;
  }

  lemma {:induction false} LinesBack(lines: seq<string>)
    requires lines != [] && forall l | l in lines :: OneLine(l)
    ensures SplitLines(JoinLines(lines) + "\n") == lines
    decreases |lines|
  {
    assert lines[0] in lines;
    if |lines| == 1 {
      assert lines[0] + "\n" == lines[0] + "\n" + "";
      SplitFirstLine(lines[0], "");
    } else {
      var rest := JoinLines(lines[1..]) + "\n";
      assert JoinLines(lines) + "\n" == lines[0] + "\n" + rest;
      assert forall l | l in lines[1..] :: l in lines;
      SplitFirstLine(lines[0], rest);
      LinesBack(lines[1..]);
    }
  }

  // ---------------------------------------------------------------------------
  // The writer.

  function Scalar(v: Value): string
    requires v.Str? || v.Bare?
  {
    if v.Str? then "\"" + Escape(v.text) + "\"" else v.text
  }

  function Spaces(n: nat): (s: string)
    ensures |s| == n && forall i | 0 <= i < n :: s[i] == ' '
  {
    seq(n, i => ' ')
  }

  predicate Nested(v: Value) { v.Map? || v.List? }

  function EntryLines(e: Entry, indent: nat): seq<string>
    decreases e
  {
    if Nested(e.value) then [Spaces(indent) + e.key + ":"] + LinesOf(e.value, indent + 2)
    else [Spaces(indent) + e.key + ": " + Scalar(e.value)]
  }

  function EntriesLines(entries: seq<Entry>, indent: nat): seq<string>
    decreases entries
  {
    if entries == [] then []
    else EntriesLines(entries[..|entries| - 1], indent) + EntryLines(entries[|entries| - 1], indent)
  }

  function ItemLines(v: Value, indent: nat): seq<string>
    decreases v, 1
  {
    if Nested(v) then [Spaces(indent) + "-"] + LinesOf(v, indent + 2) else [Spaces(indent) + "- " + Scalar(v)]
  }

  function ItemsLines(items: seq<Value>, indent: nat): seq<string>
    decreases items
  {
    if items == [] then [] else ItemsLines(items[..|items| - 1], indent) + ItemLines(items[|items| - 1], indent)
  }

  function LinesOf(v: Value, indent: nat): seq<string>
    decreases v, 0
  {
    match v
    case Map(entries) => EntriesLines(entries, indent)
    case List(items) => if items == [] then [Spaces(indent) + "[]"] else ItemsLines(items, indent)
    case _ => [Spaces(indent) + Scalar(v)]
  }

  function Dump(v: Value): string { JoinLines(LinesOf(v, 0)) + "\n" }

  class Writer {
    var lines: seq<string>

    constructor ()
      ensures lines == []
    {
      lines := [];
    }

    method Write(value: Value, indent: nat)
      modifies this
      ensures lines == old(lines) + LinesOf(value, indent)
      decreases value
    {
      var prefix := Spaces(indent);
      match value {
        case Map(entries) =>
          for i := 0 to |entries|
            invariant lines == old(lines) + EntriesLines(entries[..i], indent)
          {
            var key, child := entries[i].key, entries[i].value;
            assert entries[..i + 1][..i] == entries[..i];
            if Nested(child) {
              lines := lines + [prefix + key + ":"];
              Write(child, indent + 2);
            } else {
              lines := lines + [prefix + key + ": " + Scalar(child)];
            }
          }
          assert entries[..|entries|] == entries;
        case List(items) =>
          if items == [] {
            lines := lines + [prefix + "[]"];
          } else {
            for i := 0 to |items|
              invariant lines == old(lines) + ItemsLines(items[..i], indent)
            {
              assert items[..i + 1][..i] == items[..i];
              if Nested(items[i]) {
                lines := lines + [prefix + "-"];
                Write(items[i], indent + 2);
              } else {
                lines := lines + [prefix + "- " + Scalar(items[i])];
              }
            }
            assert items[..|items|] == items;
          }
        case _ => lines := lines + [prefix + Scalar(value)];
      }
    }
  }

  // ---------------------------------------------------------------------------
  // The reader.

  function Prefix(key: string): string { key + ": \"" }

  predicate Matches(line: string, key: string) { Prefix(key) <= line && line != "" && line[|line| - 1] == '"' }

  /** The text between the prefix and the last character; the quote that ends the prefix may be that one. */
  function Captured(line: string, key: string): string
    requires Matches(line, key)
  {
    if |line| == |Prefix(key)| then "" else line[|Prefix(key)|..|line| - 1]
  }

  function ReadLines(lines: seq<string>, key: string): string
    decreases |lines|
  {
    if lines == [] then ""
    else if Matches(lines[0], key) then Unescape(Captured(lines[0], key))
    else ReadLines(lines[1..], key)
  }

  function Read(text: string, key: string): string { ReadLines(SplitLines(text), key) }

  // ---------------------------------------------------------------------------
  // Round trip.

  predicate CleanValue(v: Value)
    decreases v
  {
    match v
    case Str(text) => OneLine(text)
    case Bare(text) => OneLine(text) && text != "" && '"' !in text
    case Map(entries) => forall e | e in entries :: OneLine(e.key) && CleanValue(e.value)
    case List(items) => forall i | i in items :: CleanValue(i)
  }

  predicate CleanEntries(entries: seq<Entry>) { forall e | e in entries :: OneLine(e.key) && CleanValue(e.value) }

  lemma {:induction false} DoubledOneLine(s: string)
    requires OneLine(s)
    ensures OneLine(DoubleBackslashes(s))
    decreases |s|
  {
    if s != "" {
      assert s[0] in s && forall c | c in s[1..] :: c in s;
      DoubledOneLine(s[1..]);
    }
  }

  lemma {:induction false} QuotedOneLine(s: string)
    requires OneLine(s)
    ensures OneLine(EscapeQuotes(s))
    decreases |s|
  {
    if s != "" {
      assert s[0] in s && forall c | c in s[1..] :: c in s;
      QuotedOneLine(s[1..]);
    }
  }

  lemma ScalarOneLine(v: Value)
    requires (v.Str? || v.Bare?) && CleanValue(v)
    ensures OneLine(Scalar(v))
  {
    if v.Str? {
      DoubledOneLine(v.text);
      QuotedOneLine(DoubleBackslashes(v.text));
    }
  }

  predicate AllOneLine(lines: seq<string>) { forall l | l in lines :: OneLine(l) }

  /** All lines of a nested value are at least this far in. */
  predicate AllIndented(lines: seq<string>, indent: nat) { forall l | l in lines :: Spaces(indent) <= l }

  lemma {:induction false} EntryLinesShape(e: Entry, indent: nat)
    requires OneLine(e.key) && CleanValue(e.value)
    ensures AllOneLine(EntryLines(e, indent)) && AllIndented(EntryLines(e, indent), indent)
    decreases e
  {
    if Nested(e.value) {
      LinesShape(e.value, indent + 2);
      assert Spaces(indent) + e.key + ":" == Spaces(indent) + (e.key + ":");
    } else {
      ScalarOneLine(e.value);
      assert Spaces(indent) + e.key + ": " + Scalar(e.value) == Spaces(indent) + (e.key + ": " + Scalar(e.value));
    }
  }

  lemma {:induction false} EntriesShape(entries: seq<Entry>, indent: nat)
    requires CleanEntries(entries)
    ensures AllOneLine(EntriesLines(entries, indent)) && AllIndented(EntriesLines(entries, indent), indent)
    decreases entries
  {
    if entries != [] {
      EntriesShape(entries[..|entries| - 1], indent);
      EntryLinesShape(entries[|entries| - 1], indent);
    }
  }

  lemma {:induction false} ItemShape(v: Value, indent: nat)
    requires CleanValue(v)
    ensures AllOneLine(ItemLines(v, indent)) && AllIndented(ItemLines(v, indent), indent)
    decreases v, 1
  {
    if Nested(v) {
      LinesShape(v, indent + 2);
    } else {
      ScalarOneLine(v);
      assert Spaces(indent) + "- " + Scalar(v) == Spaces(indent) + ("- " + Scalar(v));
    }
  }

  lemma {:induction false} ItemsShape(items: seq<Value>, indent: nat)
    requires forall i | i in items :: CleanValue(i)
    ensures AllOneLine(ItemsLines(items, indent)) && AllIndented(ItemsLines(items, indent), indent)
    decreases items
  {
    if items != [] {
      ItemsShape(items[..|items| - 1], indent);
      ItemShape(items[|items| - 1], indent);
    }
  }

  /** Without line breaks in its strings, a value is written line by line, each at its indentation or deeper. */
  lemma {:induction false} LinesShape(v: Value, indent: nat)
    requires CleanValue(v)
    ensures AllOneLine(LinesOf(v, indent)) && AllIndented(LinesOf(v, indent), indent)
    decreases v, 0
  {
    match v
    case Map(entries) => EntriesShape(entries, indent);
    case List(items) =>
      if items != [] { ItemsShape(items, indent); }
    case _ =>
      ScalarOneLine(v);
  }

  lemma {:induction false} EntriesAppend(a: seq<Entry>, b: seq<Entry>, indent: nat)
    ensures EntriesLines(a + b, indent) == EntriesLines(a, indent) + EntriesLines(b, indent)
    decreases |b|
  {
    if b == [] {
      assert a + b == a;
    } else {
      var n := |b| - 1;
      assert (a + b)[..|a + b| - 1] == a + b[..n];
      EntriesAppend(a, b[..n], indent);
    }
  }

  predicate NoneMatch(lines: seq<string>, key: string) { forall l | l in lines :: !Matches(l, key) }

  lemma {:induction false} ReadPast(a: seq<string>, b: seq<string>, key: string)
    ensures ReadLines(a + b, key) == if NoneMatch(a, key) then ReadLines(b, key) else ReadLines(a, key)
    decreases |a|
  {
    if a == [] {
      assert a + b == b;
    } else {
      assert (a + b)[1..] == a[1..] + b && a[0] in a;
      ReadPast(a[1..], b, key);
      assert NoneMatch(a, key) <==> !Matches(a[0], key) && NoneMatch(a[1..], key) by {
        assert forall l :: l in a <==> l == a[0] || l in a[1..];
      }
    }
  }

  function OwnLine(key: string, s: string): string { key + ": " + "\"" + Escape(s) + "\"" }

  lemma OwnLineReads(key: string, s: string, rest: seq<string>)
    ensures ReadLines([OwnLine(key, s)] + rest, key) == s
  {
    var line := OwnLine(key, s);
    assert line == Prefix(key) + Escape(s) + "\"";
    assert Matches(line, key) && Captured(line, key) == Escape(s);
    EscapeRoundTrip(s);
  }

  function WithField(before: seq<Entry>, key: string, s: string, after: seq<Entry>): Value {
    Map(before + [Entry(key, Str(s))] + after)
  }

  lemma OwnEntryLine(key: string, s: string)
    ensures EntriesLines([Entry(key, Str(s))], 0) == [OwnLine(key, s)]
  {
    var own := [Entry(key, Str(s))];
    assert own[..0] == [];
    assert Spaces(0) + key + ": " + Scalar(Str(s)) == OwnLine(key, s);
    assert EntriesLines(own, 0) == EntriesLines([], 0) + EntryLines(own[0], 0);
  }

  lemma FieldLines(before: seq<Entry>, key: string, s: string, after: seq<Entry>)
    ensures
      LinesOf(WithField(before, key, s, after), 0)
      == EntriesLines(before, 0) + ([OwnLine(key, s)] + EntriesLines(after, 0))
  {
    var own := [Entry(key, Str(s))];
    EntriesAppend(before + own, after, 0);
    EntriesAppend(before, own, 0);
    OwnEntryLine(key, s);
  }

  lemma DumpedLines(before: seq<Entry>, key: string, s: string, after: seq<Entry>)
    requires CleanEntries(before) && CleanEntries(after) && OneLine(key) && OneLine(s)
    ensures
      SplitLines(Dump(WithField(before, key, s, after)))
      == EntriesLines(before, 0) + ([OwnLine(key, s)] + EntriesLines(after, 0))
  {
    var whole := before + [Entry(key, Str(s))] + after;
    forall e | e in whole ensures OneLine(e.key) && CleanValue(e.value) {
      assert e in before || e == Entry(key, Str(s)) || e in after;
    }
    FieldLines(before, key, s, after);
    EntriesShape(whole, 0);
    LinesBack(LinesOf(WithField(before, key, s, after), 0));
  }

  /** What the reader returns: the field's own text, unless a line before it is taken for the field. */
  lemma ReadsOwnOrEarlier(before: seq<Entry>, key: string, s: string, after: seq<Entry>)
    requires CleanEntries(before) && CleanEntries(after) && OneLine(key) && OneLine(s)
    ensures
      Read(Dump(WithField(before, key, s, after)), key)
      == if NoneMatch(EntriesLines(before, 0), key) then s else ReadLines(EntriesLines(before, 0), key)
  {
    DumpedLines(before, key, s, after);
    ReadPast(EntriesLines(before, 0), [OwnLine(key, s)] + EntriesLines(after, 0), key);
    OwnLineReads(key, s, EntriesLines(after, 0));
  }

  /** The reader gives back every string a field may hold exactly when no line written before the field starts
      with its prefix and ends with a quote. */
  lemma RoundTripExactly(before: seq<Entry>, key: string, after: seq<Entry>)
    requires CleanEntries(before) && CleanEntries(after) && OneLine(key)
    ensures
      (forall s | OneLine(s) :: Read(Dump(WithField(before, key, s, after)), key) == s)
      <==> NoneMatch(EntriesLines(before, 0), key)
  {
    forall s | OneLine(s)
      ensures Read(Dump(WithField(before, key, s, after)), key)
           == if NoneMatch(EntriesLines(before, 0), key) then s else ReadLines(EntriesLines(before, 0), key)
    {
      ReadsOwnOrEarlier(before, key, s, after);
    }
    if !NoneMatch(EntriesLines(before, 0), key) {
      var s := if ReadLines(EntriesLines(before, 0), key) == "" then "x" else "";
      assert OneLine(s) && Read(Dump(WithField(before, key, s, after)), key) != s;
    }
  }

  // ---------------------------------------------------------------------------
  // Ordinary keys.

  predicate MarkAt(s: string, i: nat) { i + 3 <= |s| && s[i] == ':' && s[i + 1] == ' ' && s[i + 2] == '"' }

  /** No `: "` inside. */
  predicate Unmarked(s: string) { forall i: nat | i < |s| :: !MarkAt(s, i) }

  predicate Ordinary(key: string) { Unmarked(key) && !("  " <= key) }

  lemma CopiesMark(line: string, s: string, i: nat)
    requires MarkAt(line, i) && i + 3 <= |s| <= |line| && forall j | 0 <= j < |s| :: line[j] == s[j]
    ensures !Unmarked(s)
  {
    assert MarkAt(s, i);
  }

  lemma PrefixCut(key: string, other: string, rest: string)
    requires Unmarked(key) && Unmarked(other) && Prefix(key) <= Prefix(other) + rest
    ensures key == other
  {
    var p, line := Prefix(key), Prefix(other) + rest;
    assert forall i | 0 <= i < |p| :: p[i] == line[i];
    assert forall i | 0 <= i < |key| :: line[i] == p[i] == key[i];
    assert forall i | 0 <= i < |other| :: line[i] == other[i];
    assert MarkAt(line, |key|) && MarkAt(line, |other|);
    if |key| + 3 <= |other| { CopiesMark(line, other, |key|); }
    if |other| + 3 <= |key| { CopiesMark(line, key, |other|); }
    assert |key| == |other|;
    assert key == line[..|key|] == other;
  }

  lemma StringLineApart(key: string, other: string, s: string)
    requires Unmarked(key) && Unmarked(other) && key != other
    ensures !Matches(OwnLine(other, s), key)
  {
    assert OwnLine(other, s) == Prefix(other) + (Escape(s) + "\"");
    if Prefix(key) <= OwnLine(other, s) { PrefixCut(key, other, Escape(s) + "\""); }
  }

  /** A line two spaces in is never taken for a top-level field. */
  lemma IndentedApart(key: string, line: string)
    requires Ordinary(key) && Spaces(2) <= line
    ensures !Matches(line, key)
  {
    assert Spaces(2) == "  ";
    TwoSpaces(key);
  }

  lemma TwoSpaces(key: string)
    ensures "  " <= Prefix(key) ==> "  " <= key
  {
    var p := Prefix(key);
    assert |key| < 2 ==> p[|key|] == ':';
    assert |key| >= 2 ==> p[..2] == key[..2];
  }

  lemma EntryApart(key: string, e: Entry)
    requires Ordinary(key) && Unmarked(e.key) && e.key != key && OneLine(e.key) && CleanValue(e.value)
    ensures NoneMatch(EntryLines(e, 0), key)
  {
    assert Spaces(0) == "";
    match e.value
    case Str(s) =>
      assert EntryLines(e, 0) == [OwnLine(e.key, s)] by {
        assert Spaces(0) + e.key + ": " + Scalar(e.value) == OwnLine(e.key, s);
      }
      StringLineApart(key, e.key, s);
    case Bare(text) =>
      var line := Spaces(0) + e.key + ": " + text;
      assert line[|line| - 1] == text[|text| - 1] && text[|text| - 1] in text;
    case _ =>
      LinesShape(e.value, 2);
      var header := Spaces(0) + e.key + ":";
      assert header[|header| - 1] == ':';
      forall l | l in EntryLines(e, 0) ensures !Matches(l, key) {
        if l in LinesOf(e.value, 2) { IndentedApart(key, l); }
      }
  }

  lemma {:induction false} EntriesApart(key: string, entries: seq<Entry>)
    requires Ordinary(key) && CleanEntries(entries) && forall e | e in entries :: Unmarked(e.key) && e.key != key
    ensures NoneMatch(EntriesLines(entries, 0), key)
    decreases |entries|
  {
    if entries != [] {
      EntriesApart(key, entries[..|entries| - 1]);
      EntryApart(key, entries[|entries| - 1]);
    }
  }

  /** For ordinary distinct keys, and any nesting before and after, the field reads back as it was written. */
  lemma OrdinaryRoundTrip(before: seq<Entry>, key: string, s: string, after: seq<Entry>)
    requires CleanEntries(before) && CleanEntries(after) && OneLine(key) && OneLine(s)
    requires Ordinary(key) && forall e | e in before :: Unmarked(e.key) && e.key != key
    ensures Read(Dump(WithField(before, key, s, after)), key) == s
  {
    EntriesApart(key, before);
    ReadsOwnOrEarlier(before, key, s, after);
  }

  /** A key that holds `: "` can stand in for a shorter one written after it. */
  lemma MarkedKeyShadows()
    ensures Read(Dump(WithField([Entry("a: \"b", Str("x"))], "a", "y", [])), "a") != "y"
  {
    var before := [Entry("a: \"b", Str("x"))];
    OwnEntryLine("a: \"b", "x");
    ShadowingLine();
    assert EntriesLines(before, 0) == [OwnLine("a: \"b", "x")];
    ReadsOwnOrEarlier(before, "a", "y", []);
  }

  lemma ShadowingLine()
    ensures Matches(OwnLine("a: \"b", "x"), "a")
    ensures ReadLines([OwnLine("a: \"b", "x")], "a") != "y"
  {
    var line := OwnLine("a: \"b", "x");
    assert DoubleBackslashes("x") == "x" && EscapeQuotes("x") == "x";
    assert line == "a: \"b: \"x\"";
    assert Captured(line, "a") == "b: \"x";
    ShortUnescape();
  }

  lemma ShortUnescape()
    ensures Unescape("b: \"x") != "y"
  {
    var s := "b: \"x";
    assert UnescapeQuotes(s)[0] == 'b';
    assert HalveBackslashes(UnescapeQuotes(s))[0] == 'b';
  }
}
