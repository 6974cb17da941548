/**
 The trigger-condition language of scenarios: the evaluator over strings, an abstract syntax with its meaning,
 and the proof that evaluating a printed condition gives its meaning.
 */
module Conditions {
  import opened Basics
  import opened Text

  datatype Event = Event(tick: int, source: string, kind: string, target: string, payload: map<string, string>)

  /** The part of a scenario's state a condition may look at. */
  datatype View = View(tick: nat, events: seq<Event>, checkpoints: set<string>, flags: map<string, string>)

  /** `ValueError`: an unrecognised clause. */
  datatype Error = Malformed

  type Truth = Result<bool, Error>

  // ---------------------------------------------------------------------------
  // The evaluator.

  function FindAnd(s: string): (i: nat)
    ensures i <= |s| && (i < |s| ==> i + 1 < |s| && s[i] == '&' && s[i + 1] == '&')
    decreases |s|
  {
    if |s| < 2 then |s| else if s[0] == '&' && s[1] == '&' then 0 else 1 + FindAnd(s[1..])
  }

  /** `s.split("&&")`. */
  function SplitAnd(s: string): (parts: seq<string>)
    ensures |parts| >= 1
    decreases |s|
  {
    var i := FindAnd(s);
    if i == |s| then [s] else [s[..i]] + SplitAnd(s[i + 2..])
  }

  function Evaluate(condition: string, v: View): Truth {
    var text := Strip(condition);
    if text == "" then Ok(true) else EvaluateAll(SplitAnd(text), v)
  }

  /** Stops at the first false clause, so a malformed clause after it is never looked at. */
  function EvaluateAll(clauses: seq<string>, v: View): Truth
    decreases |clauses|
  {
    if clauses == [] then Ok(true)
    else
      match EvaluateClause(clauses[0], v)
      case Err(e) => Err(e)
      case Ok(false) => Ok(false)
      case Ok(true) => EvaluateAll(clauses[1..], v)
  }

  function EvaluateClause(clause: string, v: View): Truth {
    var text := Strip(clause);
    var i := IndexOf(text, ':');
    if text == "" then Ok(true)
    else if i == |text| then Err(Malformed)
    else
      var prefix, rest := text[..i], text[i + 1..];
      if prefix == "time" then EvaluateTime(rest, v.tick)
      else if prefix == "event" then EvaluateEvent(rest, v.events)
      else if prefix == "checkpoint" then Ok(Strip(rest) in v.checkpoints)
      else if prefix == "state" then EvaluateState(rest, v.flags)
      else if prefix == "count" then EvaluateCount(rest, v.events)
      else Err(Malformed)
  }

  datatype Op = Ge | Le | Eq | Ne | Gt | Lt

  function Compare(op: Op, a: int, b: int): bool {
    match op
    case Ge => a >= b
    case Le => a <= b
    case Eq => a == b
    case Ne => a != b
    case Gt => a > b
    case Lt => a < b
  }

  function OpText(op: Op): string {
    match op
    case Ge => ">="
    case Le => "<="
    case Eq => "=="
    case Ne => "!="
    case Gt => ">"
    case Lt => "<"
  }

  /** The operator a text starts with, longest first. */
  function LeadingOp(s: string): Option<Op> {
    if OpText(Ge) <= s then Some(Ge)
    else if OpText(Le) <= s then Some(Le)
    else if OpText(Eq) <= s then Some(Eq)
    else if OpText(Ne) <= s then Some(Ne)
    else if OpText(Gt) <= s then Some(Gt)
    else if OpText(Lt) <= s then Some(Lt)
    else None
  }

  function WithoutUnit(s: string): string { if s != "" && s[|s| - 1] == 's' then s[..|s| - 1] else s }

  function EvaluateTime(expr: string, tick: nat): Truth {
    var s := Strip(expr);
    if s != "" && s[0] == '+' then
      var n := WithoutUnit(s[1..]);
      if Digits(n) then Ok(tick >= ParseNat(n)) else Err(Malformed)
    else
      match LeadingOp(s)
      case None => Err(Malformed)
      case Some(op) =>
        var n := WithoutUnit(s[|OpText(op)|..]);
        if op.Ne? || !Digits(n) then Err(Malformed) else Ok(Compare(op, tick, ParseNat(n)))
  }

  predicate Happened(events: seq<Event>, kind: string) { exists e | e in events :: e.kind == kind }

  predicate HappenedFrom(events: seq<Event>, source: string, kind: string) {
    exists e | e in events :: e.source == source && e.kind == kind
  }

  function EvaluateEvent(expr: string, events: seq<Event>): Truth {
    var parts := SplitOn(expr, ':');
    if |parts| == 1 then Ok(Happened(events, Strip(parts[0])))
    else if |parts| == 2 then Ok(HappenedFrom(events, Strip(parts[0]), Strip(parts[1])))
    else Err(Malformed)
  }

  /** The first of the given characters. */
  function FirstOf(s: string, stops: set<char>): (i: nat)
    ensures i <= |s| && (forall k | 0 <= k < i :: s[k] !in stops) && (i < |s| ==> s[i] in stops)
    decreases |s|
  {
    if s == "" || s[0] in stops then 0 else 1 + FirstOf(s[1..], stops)
  }

  function Lookup(flags: map<string, string>, key: string): Option<string> {
    if key in flags then Some(flags[key]) else None
  }

  /** `key=value` or `key!=value`; the key is not empty and the value has no line break. */
  function EvaluateState(expr: string, flags: map<string, string>): Truth {
    var i := FirstOf(expr, {'=', '!'});
    if i == 0 || i == |expr| then Err(Malformed)
    else if expr[i] == '!' && (i + 1 == |expr| || expr[i + 1] != '=') then Err(Malformed)
    else
      var value := expr[i + (if expr[i] == '!' then 2 else 1)..];
      if '\n' in value then Err(Malformed)
      else
        var holds := Lookup(flags, Strip(expr[..i])) == Some(Strip(value));
        Ok(if expr[i] == '!' then !holds else holds)
  }

  function CountOf(events: seq<Event>, kind: string): nat
    decreases |events|
  {
    if events == [] then 0
    else CountOf(events[..|events| - 1], kind) + (if events[|events| - 1].kind == kind then 1 else 0)
  }

  function EvaluateCount(expr: string, events: seq<Event>): Truth {
    var i := FirstOf(expr, {'>', '<', '=', '!'});
    if i == 0 || i == |expr| then Err(Malformed)
    else
      match LeadingOp(expr[i..])
      case None => Err(Malformed)
      case Some(op) =>
        var n := expr[i + |OpText(op)|..];
        if !Digits(n) then Err(Malformed) else Ok(Compare(op, CountOf(events, Strip(expr[..i])), ParseNat(n)))
  }

  // ---------------------------------------------------------------------------
  // Abstract syntax, its meaning, and its printed form.

  datatype Clause =
    | Time(op: Op, n: nat)
    | Elapsed(n: nat)
    | Kind(kind: string)
    | KindFrom(source: string, kind: string)
    | Checkpoint(name: string)
    | Flag(key: string, negated: bool, value: string)
    | Count(kind: string, op: Op, n: nat)

  predicate Meaning(c: Clause, v: View) {
    match c
    case Time(op, n) => Compare(op, v.tick, n)
    case Elapsed(n) => v.tick >= n
    case Kind(kind) => Happened(v.events, kind)
    case KindFrom(source, kind) => HappenedFrom(v.events, source, kind)
    case Checkpoint(name) => name in v.checkpoints
    case Flag(key, negated, value) => (Lookup(v.flags, key) == Some(value)) != negated
    case Count(kind, op, n) => Compare(op, CountOf(v.events, kind), n)
  }

  predicate MeaningAll(cs: seq<Clause>, v: View) { forall c | c in cs :: Meaning(c, v) }

  function Prefix(c: Clause): string {
    match c
    case Time(_, _) => "time"
    case Elapsed(_) => "time"
    case Kind(_) => "event"
    case KindFrom(_, _) => "event"
    case Checkpoint(_) => "checkpoint"
    case Flag(_, _, _) => "state"
    case Count(_, _, _) => "count"
  }

  function Body(c: Clause): string {
    match c
    case Time(op, n) => OpText(op) + PrintNat(n)
    case Elapsed(n) => "+" + PrintNat(n)
    case Kind(kind) => kind
    case KindFrom(source, kind) => source + ":" + kind
    case Checkpoint(name) => name
    case Flag(key, negated, value) => key + (if negated then "!=" else "=") + value
    case Count(kind, op, n) => kind + OpText(op) + PrintNat(n)
  }

  function Print(c: Clause): string { Prefix(c) + ":" + Body(c) }

  function PrintEach(cs: seq<Clause>): (texts: seq<string>)
    ensures |texts| == |cs| && forall i | 0 <= i < |cs| :: texts[i] == Print(cs[i])
  {
    seq(|cs|, i requires 0 <= i < |cs| => Print(cs[i]))
  }

  /** `"&&".join(texts)`. */
  function JoinAnd(texts: seq<string>): string
    decreases |texts|
  {
    if texts == [] then "" else if |texts| == 1 then texts[0] else texts[0] + "&&" + JoinAnd(texts[1..])
  }

  function PrintAll(cs: seq<Clause>): string { JoinAnd(PrintEach(cs)) }

  predicate Plain(name: string, delimiters: set<char>) {
    Trim(name) && '&' !in name && forall c | c in name :: c !in delimiters
  }

  /** Names free of the delimiters of their clause. */
  predicate WellNamed(c: Clause) {
    match c
    case Time(op, _) => !op.Ne?
    case Elapsed(_) => true
    case Kind(kind) => Plain(kind, {':'})
    case KindFrom(source, kind) => Plain(source, {':'}) && Plain(kind, {':'})
    case Checkpoint(name) => Plain(name, {})
    case Flag(key, _, value) => key != "" && Plain(key, {'=', '!'}) && Plain(value, {'\n'})
    case Count(kind, _, _) => kind != "" && Plain(kind, {'>', '<', '=', '!'})
  }

  // ---------------------------------------------------------------------------
  // Printing and evaluating back.

  lemma FirstOfIs(s: string, stops: set<char>, i: nat)
    requires i < |s| && s[i] in stops && forall c | c in s[..i] :: c !in stops
    ensures FirstOf(s, stops) == i
  {
    assert forall k | 0 <= k < i :: s[k] in s[..i];
  }

  lemma OpThenDigits(op: Op, n: string)
    requires Digits(n)
    ensures LeadingOp(OpText(op) + n) == Some(op)
    ensures (OpText(op) + n)[|OpText(op)|..] == n
  {
    var t, s := OpText(op), OpText(op) + n;
    assert IsDigit(n[0]) && s[|t|] == n[0];
    assert s[0] == t[0] && t <= s;
    if |t| == 1 { assert forall o | OpText(o) <= s :: s[|OpText(o)| - 1] == OpText(o)[|OpText(o)| - 1]; }
    else { assert s[1] == t[1]; }
  }

  lemma DigitsTrim(n: string)
    requires Digits(n)
    ensures Trim(n) && WithoutUnit(n) == n && '&' !in n && ':' !in n
  {
    assert IsDigit(n[0]) && IsDigit(n[|n| - 1]);
  }

  lemma TimeRefines(op: Op, n: nat, tick: nat)
    requires !op.Ne?
    ensures EvaluateTime(OpText(op) + PrintNat(n), tick) == Ok(Compare(op, tick, n))
  {
    var digits := PrintNat(n);
    var s := OpText(op) + digits;
    DigitsTrim(digits);
    OpThenDigits(op, digits);
    PrintThenParseNat(n);
    assert s[|s| - 1] == digits[|digits| - 1];
    StripTrim(s);
  }

  lemma ElapsedRefines(n: nat, tick: nat)
    ensures EvaluateTime("+" + PrintNat(n), tick) == Ok(tick >= n)
  {
    var digits := PrintNat(n);
    var s := "+" + digits;
    DigitsTrim(digits);
    PrintThenParseNat(n);
    assert s[|s| - 1] == digits[|digits| - 1] && s[1..] == digits;
    StripTrim(s);
  }

  lemma EventRefines(source: string, kind: string, events: seq<Event>)
    requires Plain(source, {':'}) && Plain(kind, {':'})
    ensures EvaluateEvent(kind, events) == Ok(Happened(events, kind))
    ensures EvaluateEvent(source + ":" + kind, events) == Ok(HappenedFrom(events, source, kind))
  {
    SplitOne(kind, ':');
    SplitTwo(source, ':', kind);
    StripTrim(source);
    StripTrim(kind);
  }

  lemma StateRefines(key: string, negated: bool, value: string, flags: map<string, string>)
    requires key != "" && Plain(key, {'=', '!'}) && Plain(value, {'\n'})
    ensures
      EvaluateState(key + (if negated then "!=" else "=") + value, flags)
      == Ok((Lookup(flags, key) == Some(value)) != negated)
  {
    var op := if negated then "!=" else "=";
    var s := key + op + value;
    assert s[..|key|] == key && s[|key|] == op[0];
    FirstOfIs(s, {'=', '!'}, |key|);
    assert s[|key| + |op|..] == value;
    StripTrim(key);
    StripTrim(value);
  }

  lemma CountRefines(kind: string, op: Op, n: nat, events: seq<Event>)
    requires kind != "" && Plain(kind, {'>', '<', '=', '!'})
    ensures EvaluateCount(kind + OpText(op) + PrintNat(n), events) == Ok(Compare(op, CountOf(events, kind), n))
  {
    var digits := PrintNat(n);
    var s := kind + OpText(op) + digits;
    assert s[..|kind|] == kind && s[|kind|] == OpText(op)[0];
    FirstOfIs(s, {'>', '<', '=', '!'}, |kind|);
    assert s[|kind|..] == OpText(op) + digits;
    OpThenDigits(op, digits);
    assert s[|kind| + |OpText(op)|..] == digits;
    PrintThenParseNat(n);
    StripTrim(kind);
  }

  /** A clause text with a known prefix. */
  lemma ClauseBody(prefix: string, body: string, v: View)
    requires prefix in {"time", "event", "checkpoint", "state", "count"} && Trim(prefix + ":" + body)
    ensures
      EvaluateClause(prefix + ":" + body, v) ==
      if prefix == "time" then EvaluateTime(body, v.tick)
      else if prefix == "event" then EvaluateEvent(body, v.events)
      else if prefix == "checkpoint" then Ok(Strip(body) in v.checkpoints)
      else if prefix == "state" then EvaluateState(body, v.flags)
      else EvaluateCount(body, v.events)
  {
    var text := prefix + ":" + body;
    StripTrim(text);
    Halves(prefix, ':', body);
    assert ':' !in prefix;
    IndexIs(text, ':', |prefix|);
  }

  lemma Halves(a: string, c: char, b: string)
    ensures
      var s := a + [c] + b;
      |s| == |a| + 1 + |b| && s[|a|] == c && s[..|a|] == a && s[|a| + 1..] == b
  {}

  /** The last character of a printed clause is that of its last name, digit or delimiter. */
  lemma PrintedTrim(c: Clause)
    requires WellNamed(c)
    ensures Trim(Print(c)) && '&' !in Print(c) && Print(c) != ""
  {
    BodyEnds(c);
    var s := Prefix(c) + ":" + Body(c);
    assert s[0] == Prefix(c)[0];
    if Body(c) != "" { assert s[|s| - 1] == Body(c)[|Body(c)| - 1]; } else { assert s[|s| - 1] == ':'; }
  }

  lemma AppendEnds(a: string, b: string)
    requires a != "" || b != ""
    requires a != "" && b == "" ==> !IsSpace(a[|a| - 1])
    requires b != "" ==> !IsSpace(b[|b| - 1])
    requires '&' !in a && '&' !in b
    ensures !IsSpace((a + b)[|a + b| - 1]) && '&' !in a + b
  {}

  lemma BodyEnds(c: Clause)
    requires WellNamed(c)
    ensures Body(c) != "" ==> !IsSpace(Body(c)[|Body(c)| - 1])
    ensures '&' !in Body(c)
  {
    match c
    case Time(op, n) =>
      DigitsTrim(PrintNat(n));
      AppendEnds(OpText(op), PrintNat(n));
    case Elapsed(n) =>
      DigitsTrim(PrintNat(n));
      AppendEnds("+", PrintNat(n));
    case Kind(_) =>
    case KindFrom(source, kind) => AppendEnds(source + ":", kind);
    case Checkpoint(_) =>
    case Flag(key, negated, value) => AppendEnds(key + (if negated then "!=" else "="), value);
    case Count(kind, op, n) =>
      DigitsTrim(PrintNat(n));
      AppendEnds(kind + OpText(op), PrintNat(n));
  }

  lemma ClauseRefines(c: Clause, v: View)
    requires WellNamed(c)
    ensures EvaluateClause(Print(c), v) == Ok(Meaning(c, v))
  {
    PrintedTrim(c);
    ClauseBody(Prefix(c), Body(c), v);
    match c
    case Time(op, n) => TimeRefines(op, n, v.tick);
    case Elapsed(n) => ElapsedRefines(n, v.tick);
    case Kind(kind) => EventRefines("", kind, v.events);
    case KindFrom(source, kind) => EventRefines(source, kind, v.events);
    case Checkpoint(name) => StripTrim(name);
    case Flag(key, negated, value) => StateRefines(key, negated, value, v.flags);
    case Count(kind, op, n) => CountRefines(kind, op, n, v.events);
  }

  lemma {:induction false} FindAndSkips(a: string, rest: string)
    requires '&' !in a
    ensures FindAnd(a + "&&" + rest) == |a|
    decreases |a|
  {
    var s := a + "&&" + rest;
    if a == "" {
      assert s[0] == '&' && s[1] == '&';
    } else {
      assert s[0] == a[0] && s[1..] == a[1..] + "&&" + rest;
      FindAndSkips(a[1..], rest);
    }
  }

  lemma {:induction false} FindAndNone(a: string)
    requires '&' !in a
    ensures FindAnd(a) == |a|
    decreases |a|
  {
    if |a| >= 2 { FindAndNone(a[1..]); }
  }

  lemma SplitAndFirst(first: string, rest: string)
    requires '&' !in first
    ensures SplitAnd(first + "&&" + rest) == [first] + SplitAnd(rest)
  {
    var s := first + "&&" + rest;
    FindAndSkips(first, rest);
    assert s[..|first|] == first && s[|first| + 2..] == rest;
  }

  lemma {:induction false} SplitJoined(texts: seq<string>)
    requires texts != [] && forall i | 0 <= i < |texts| :: '&' !in texts[i]
    ensures SplitAnd(JoinAnd(texts)) == texts
    decreases |texts|
  {
    if |texts| == 1 {
      FindAndNone(texts[0]);
    } else {
      SplitAndFirst(texts[0], JoinAnd(texts[1..]));
      SplitJoined(texts[1..]);
    }
  }

  lemma {:induction false} JoinedTrim(texts: seq<string>)
    requires texts != [] && forall i | 0 <= i < |texts| :: Trim(texts[i]) && texts[i] != ""
    ensures Trim(JoinAnd(texts)) && JoinAnd(texts) != ""
    decreases |texts|
  {
    if |texts| > 1 {
      var s, rest := JoinAnd(texts), JoinAnd(texts[1..]);
      JoinedTrim(texts[1..]);
      assert s[0] == texts[0][0] && s[|s| - 1] == rest[|rest| - 1];
    }
  }

  lemma {:induction false} EachRefines(cs: seq<Clause>, v: View)
    requires forall c | c in cs :: WellNamed(c)
    ensures EvaluateAll(PrintEach(cs), v) == Ok(MeaningAll(cs, v))
    decreases |cs|
  {
    if cs != [] {
      ClauseRefines(cs[0], v);
      assert PrintEach(cs)[1..] == PrintEach(cs[1..]);
      EachRefines(cs[1..], v);
      assert MeaningAll(cs, v) <==> Meaning(cs[0], v) && MeaningAll(cs[1..], v) by {
        assert forall c :: c in cs <==> c == cs[0] || c in cs[1..];
      }
    }
  }

  /** Evaluating the printed string of any conjunction of well-named clauses gives its meaning. */
  lemma EvaluateRefines(cs: seq<Clause>, v: View)
    requires forall c | c in cs :: WellNamed(c)
    ensures Evaluate(PrintAll(cs), v) == Ok(MeaningAll(cs, v))
  {
    if cs != [] {
      forall i | 0 <= i < |cs| ensures Trim(Print(cs[i])) && '&' !in Print(cs[i]) && Print(cs[i]) != "" {
        PrintedTrim(cs[i]);
      }
      JoinedTrim(PrintEach(cs));
      StripTrim(PrintAll(cs));
      SplitJoined(PrintEach(cs));
      EachRefines(cs, v);
    }
  }

  // ---------------------------------------------------------------------------
  // The fragment that stays true.

  predicate Growing(c: Clause) {
    match c
    case Time(op, _) => op.Ge?
    case Elapsed(_) => true
    case Kind(_) => true
    case KindFrom(_, _) => true
    case Checkpoint(_) => true
    case Flag(_, _, _) => false
    case Count(_, op, _) => op.Ge?
  }

  /** Later in a run: more ticks, more events, more checkpoints; the flags may be anything. */
  predicate Grows(v: View, v': View) {
    v.tick <= v'.tick && v.events <= v'.events && v.checkpoints <= v'.checkpoints
  }

  lemma {:induction false} CountGrows(a: seq<Event>, b: seq<Event>, kind: string)
    requires a <= b
    ensures CountOf(a, kind) <= CountOf(b, kind)
    decreases |b|
  {
    if |a| < |b| { CountGrows(a, b[..|b| - 1], kind); } else { assert a == b; }
  }

  lemma MeaningGrows(c: Clause, v: View, v': View)
    requires Growing(c) && Grows(v, v') && Meaning(c, v)
    ensures Meaning(c, v')
  {
    match c
    case Time(_, _) =>
    case Elapsed(_) =>
    case Kind(kind) =>
      var e :| e in v.events && e.kind == kind;
      assert e in v'.events;
    case KindFrom(source, kind) =>
      var e :| e in v.events && e.source == source && e.kind == kind;
      assert e in v'.events;
    case Checkpoint(_) =>
    case Count(kind, _, _) => CountGrows(v.events, v'.events, kind);
  }

  /** A condition of `time:>=`, `event`, `checkpoint` and `count:>=` clauses, once true, stays true. */
  lemma GrowingStaysTrue(cs: seq<Clause>, v: View, v': View)
    requires forall c | c in cs :: WellNamed(c) && Growing(c)
    requires Grows(v, v') && Evaluate(PrintAll(cs), v) == Ok(true)
    ensures Evaluate(PrintAll(cs), v') == Ok(true)
  {
    EvaluateRefines(cs, v);
    EvaluateRefines(cs, v');
    forall c | c in cs ensures Meaning(c, v') { MeaningGrows(c, v, v'); }
  }

  ghost predicate FirstProblem(clauses: seq<string>, v: View, i: nat)
    requires i < |clauses|
  {
    EvaluateClause(clauses[i], v).Err? && forall j | 0 <= j < i :: EvaluateClause(clauses[j], v) == Ok(true)
  }

  lemma FirstProblemShifts(clauses: seq<string>, v: View, i: nat)
    requires i + 1 < |clauses|
    ensures FirstProblem(clauses, v, i + 1) <==>
      EvaluateClause(clauses[0], v) == Ok(true) && FirstProblem(clauses[1..], v, i)
  {
    var rest := clauses[1..];
    assert rest[i] == clauses[i + 1];
    if FirstProblem(clauses, v, i + 1) {
      forall j | 0 <= j < i ensures EvaluateClause(rest[j], v) == Ok(true) { assert rest[j] == clauses[j + 1]; }
    }
    if EvaluateClause(clauses[0], v) == Ok(true) && FirstProblem(rest, v, i) {
      forall j | 0 <= j < i + 1 ensures EvaluateClause(clauses[j], v) == Ok(true) {
        if j > 0 { assert clauses[j] == rest[j - 1]; }
      }
    }
  }

  /** A malformed clause is reported exactly when every clause before it is true. */
  lemma {:induction false} ErrorNeedsTruthBefore(clauses: seq<string>, v: View)
    ensures EvaluateAll(clauses, v).Err? <==> exists i: nat :: i < |clauses| && FirstProblem(clauses, v, i)
    decreases |clauses|
  {
    if clauses != [] {
      var rest := clauses[1..];
      ErrorNeedsTruthBefore(rest, v);
      if EvaluateAll(clauses, v).Err? {
        if EvaluateClause(clauses[0], v).Err? {
          assert FirstProblem(clauses, v, 0);
        } else {
          var i: nat :| i < |rest| && FirstProblem(rest, v, i);
          FirstProblemShifts(clauses, v, i);
        }
      }
      if i: nat :| i < |clauses| && FirstProblem(clauses, v, i) {
        if i > 0 { FirstProblemShifts(clauses, v, i - 1); }
      }
    }
  }
}
