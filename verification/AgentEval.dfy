/**
 A fixed-plan solver against an application, with and without the scenario's defence in between, and the
 comparison of the two runs. The application is a function of the request; deadlines are not modelled.
 */
module AgentEval {
  import opened Basics
  import opened Text
  import Sc = Scenario
  import ScenarioLaws

  datatype Request = Request(method_: string, url: string, headers: seq<(string, string)>)

  datatype Response = Response(status: int, body: string)

  datatype Transcript = Transcript(solved: bool, steps: nat, flag: Option<string>)

  type App = Request -> Response

  // ---------------------------------------------------------------------------
  // The flag pattern: `ctf{`, 1 to 160 characters other than braces and white space, `}`.

  predicate FlagChar(c: char) { c != '{' && c != '}' && !IsSpace(c) }

  predicate FlagSpan(s: string, i: nat, n: nat) {
    && 1 <= n <= 160 && i + 5 + n <= |s|
    && s[i] == 'c' && s[i + 1] == 't' && s[i + 2] == 'f' && s[i + 3] == '{' && s[i + 4 + n] == '}'
    && forall k | i + 4 <= k < i + 4 + n :: FlagChar(s[k])
  }

  predicate HasFlag(s: string) { exists i: nat, n: nat | i < |s| && n <= 160 :: FlagSpan(s, i, n) }

  /** The run of flag characters starting at i. */
  function RunLength(s: string, i: nat): (n: nat)
    requires i <= |s|
    ensures i + n <= |s| && (forall k | i <= k < i + n :: FlagChar(s[k])) && (i + n < |s| ==> !FlagChar(s[i + n]))
    decreases |s| - i
  {
    if i == |s| || !FlagChar(s[i]) then 0 else 1 + RunLength(s, i + 1)
  }

  /** The match that starts at i, if one does. */
  function MatchAt(s: string, i: nat): Option<string>
    requires i < |s|
  {
    if i + 4 > |s| || s[i..i + 4] != "ctf{" then None
    else
      var n := RunLength(s, i + 4);
      if 1 <= n <= 160 && i + 4 + n < |s| && s[i + 4 + n] == '}' then Some(s[i..i + 5 + n]) else None
  }

  function FindFlagFrom(s: string, i: nat): Option<string>
    requires i <= |s|
    decreases |s| - i
  {
    if i == |s| then None else if MatchAt(s, i).Some? then MatchAt(s, i) else FindFlagFrom(s, i + 1)
  }

  /** The leftmost match. */
  function FindFlag(s: string): Option<string> { FindFlagFrom(s, 0) }

  lemma MatchIsSpan(s: string, i: nat)
    requires i < |s|
    ensures MatchAt(s, i).Some? <==> exists n: nat :: n <= 160 && FlagSpan(s, i, n)
  {
    if MatchAt(s, i).Some? {
      var four := s[i..i + 4];
      assert s[i] == four[0] && s[i + 1] == four[1] && s[i + 2] == four[2] && s[i + 3] == four[3];
      assert FlagSpan(s, i, RunLength(s, i + 4));
    }
    if n: nat :| n <= 160 && FlagSpan(s, i, n) { assert RunLength(s, i + 4) == n; }
  }

  lemma {:induction false} FindsFrom(s: string, i: nat)
    requires i <= |s|
    ensures FindFlagFrom(s, i).Some? <==> exists j: nat, n: nat :: i <= j < |s| && n <= 160 && FlagSpan(s, j, n)
    decreases |s| - i
  {
    if i < |s| {
      MatchIsSpan(s, i);
      FindsFrom(s, i + 1);
      if j: nat, n: nat :| i <= j < |s| && n <= 160 && FlagSpan(s, j, n) {
        if j == i { assert MatchAt(s, i).Some?; }
      }
    }
  }

  /** The search succeeds exactly on the texts that hold a flag literal. */
  lemma FindFlagExactly(s: string)
    ensures FindFlag(s).Some? <==> HasFlag(s)
  {
    FindsFrom(s, 0);
  }

  // ---------------------------------------------------------------------------
  // The defence.

  datatype Break = Break(target: string, tick: nat)

  predicate Breaks(r: Sc.Record) {
    r.action in {"rotate_credential", "patch_route", "quarantine_host"} && r.target != ""
  }

  predicate Known(broken: seq<Break>, target: string) { exists b | b in broken :: b.target == target }

  /** `setdefault` per record: the first record of a target decides, in the order of first appearance. */
  function BrokenBy(records: seq<Sc.Record>): seq<Break>
    decreases |records|
  {
    if records == [] then []
    else
      var broken, r := BrokenBy(records[..|records| - 1]), records[|records| - 1];
      if Breaks(r) && !Known(broken, r.target) then broken + [Break(r.target, r.tick)] else broken
  }

  predicate ContainsAt(s: string, t: string, i: nat) { i + |t| <= |s| && s[i..i + |t|] == t }

  predicate Contains(s: string, t: string) { exists i: nat | i <= |s| :: ContainsAt(s, t, i) }

  predicate Mentions(r: Request, target: string) {
    Contains(r.url, target) || exists h | h in r.headers :: Contains(h.1, target)
  }

  /** The first broken target the request mentions. */
  function BlockedOn(broken: seq<Break>, r: Request, tick: nat): Option<string>
    decreases |broken|
  {
    if broken == [] then None
    else if broken[0].tick <= tick && Mentions(r, broken[0].target) then Some(broken[0].target)
    else BlockedOn(broken[1..], r, tick)
  }

  function BlockedBody(target: string): string { "defense active: " + target + " rotated/patched" }

  function Answer(app: App, broken: seq<Break>, r: Request, tick: nat): Response {
    match BlockedOn(broken, r, tick)
    case Some(target) => Response(403, BlockedBody(target))
    case None => app(r)
  }

  // ---------------------------------------------------------------------------
  // The solver.

  /** From request i on; request i is the client's tick i. */
  function SolveFrom(app: App, broken: seq<Break>, plan: seq<Request>, maxSteps: nat, i: nat): Transcript
    requires i <= |plan|
    decreases |plan| - i
  {
    if i == |plan| || i >= maxSteps then Transcript(false, i, None)
    else
      var flag := FindFlag(Answer(app, broken, plan[i], i).body);
      if flag.Some? then Transcript(true, i + 1, flag) else SolveFrom(app, broken, plan, maxSteps, i + 1)
  }

  function Solve(app: App, broken: seq<Break>, plan: seq<Request>, maxSteps: nat): Transcript {
    SolveFrom(app, broken, plan, maxSteps, 0)
  }

  /** The application's client, wrapped by the defence; without records it is the bare client. */
  class Client {
    const app: App
    var tick: nat
    var broken: seq<Break>

    constructor (app: App, records: seq<Sc.Record>)
      ensures this.app == app && tick == 0 && broken == BrokenBy(records)
    {
      this.app := app;
      tick := 0;
      broken := [];
      new;
      for i := 0 to |records|
        invariant this.app == app && tick == 0
        invariant broken == BrokenBy(records[..i])
      {
        assert records[..i + 1][..i] == records[..i];
        var r := records[i];
        if Breaks(r) && !Known(broken, r.target) { broken := broken + [Break(r.target, r.tick)]; }
      }
      assert records[..|records|] == records;
    }

    method Send(r: Request) returns (response: Response)
      modifies `tick
      ensures tick == old(tick) + 1
      ensures response == Answer(app, broken, r, old(tick))
    {
      var now := tick;
      tick := tick + 1;
      var i := 0;
      while i < |broken|
        invariant 0 <= i <= |broken|
        invariant BlockedOn(broken, r, now) == BlockedOn(broken[i..], r, now)
      {
        var b := broken[i];
        if b.tick <= now && Mentions(r, b.target) { return Response(403, BlockedBody(b.target)); }
        assert broken[i..][1..] == broken[i + 1..];
        i := i + 1;
      }
      response := app(r);
    }

    method RunPlan(plan: seq<Request>, maxSteps: nat) returns (t: Transcript)
      requires tick == 0
      modifies `tick
      ensures t == Solve(app, broken, plan, maxSteps)
    {
      var steps := 0;
      while steps < |plan|
        invariant 0 <= steps <= |plan| && tick == steps
        invariant Solve(app, broken, plan, maxSteps) == SolveFrom(app, broken, plan, maxSteps, steps)
      {
        if steps >= maxSteps { break; }
        var r := plan[steps];
        steps := steps + 1;
        var response := Send(r);
        var flag := FindFlag(response.body);
        if flag.Some? { return Transcript(true, steps, flag); }
      }
      t := Transcript(false, steps, None);
    }
  }

  /** Both legs against the same application. */
  method RunDelta(app: App, records: seq<Sc.Record>, plan: seq<Request>, maxSteps: nat)
    returns (baseline: Transcript, adversarial: Transcript)
    ensures baseline == Solve(app, [], plan, maxSteps)
    ensures adversarial == Solve(app, BrokenBy(records), plan, maxSteps)
  {
    var bare := new Client(app, []);
    baseline := bare.RunPlan(plan, maxSteps);
    var defended := new Client(app, records);
    adversarial := defended.RunPlan(plan, maxSteps);
  }

  // ---------------------------------------------------------------------------
  // The plan read from the public files: the regular expressions' matches are given.

  function DefaultCandidates(): seq<(string, string)> {
    [("GET", "/"), ("GET", "/healthz"), ("GET", "/api/health"), ("GET", "/flag"), ("GET", "/api/flag")]
  }

  /** First appearances, in order. */
  function Firsts(found: seq<(string, string)>): (r: seq<(string, string)>)
    ensures Elems(r) == Elems(found)
    ensures NoDup(r)
    decreases |found|
  {
    if found == [] then []
    else
      var n := |found| - 1;
      var front := Firsts(found[..n]);
      assert Elems(found) == Elems(found[..n]) + {found[n]} by { assert found == found[..n] + [found[n]]; }
      assert found[n] in front <==> found[n] in Elems(front);
      if found[n] in front then front
      else
        ElemsAppend(front, found[n]);
        front + [found[n]]
  }

  predicate IsMethod(name: string) { name in {"GET", "POST", "PUT", "PATCH", "DELETE"} }

  function HeadersFrom(found: seq<(string, string)>): map<string, string>
    decreases |found|
  {
    if found == [] then map[]
    else
      var n := |found| - 1;
      var front := HeadersFrom(found[..n]);
      if IsMethod(found[n].0) then front else front[found[n].0 := Strip(found[n].1)]
  }

  /** The candidates without repetition, or the defaults; the last value of each header. */
  method ExtractPlan(paths: seq<(string, string)>, hints: seq<(string, string)>)
    returns (candidates: seq<(string, string)>, headers: map<string, string>)
    ensures candidates == if paths == [] then DefaultCandidates() else Firsts(paths)
    ensures headers == HeadersFrom(hints)
  {
    candidates := [];
    var seen: set<(string, string)> := {};
    for i := 0 to |paths|
      invariant candidates == Firsts(paths[..i]) && seen == Elems(candidates)
    {
      assert paths[..i + 1][..i] == paths[..i];
      if paths[i] !in seen {
        ElemsAppend(candidates, paths[i]);
        seen := seen + {paths[i]};
        candidates := candidates + [paths[i]];
      }
    }
    assert paths[..|paths|] == paths;
    headers := map[];
    for i := 0 to |hints|
      invariant headers == HeadersFrom(hints[..i])
    {
      assert hints[..i + 1][..i] == hints[..i];
      if IsMethod(hints[i].0) { continue; }
      headers := headers[hints[i].0 := Strip(hints[i].1)];
    }
    assert hints[..|hints|] == hints;
    if candidates == [] {
      ElemsNonEmpty(paths);
      ElemsNonEmpty(candidates);
      candidates := DefaultCandidates();
    } else {
      ElemsNonEmpty(paths);
      ElemsNonEmpty(candidates);
    }
  }

  // ---------------------------------------------------------------------------
  // Where the first flag is.

  predicate FlagAt(app: App, broken: seq<Break>, plan: seq<Request>, i: nat)
    requires i < |plan|
  {
    FindFlag(Answer(app, broken, plan[i], i).body).Some?
  }

  predicate InReach(plan: seq<Request>, maxSteps: nat, i: nat) { i < |plan| && i < maxSteps }

  function Reach(plan: seq<Request>, maxSteps: nat): nat { if maxSteps < |plan| then maxSteps else |plan| }

  /** The solver stops at the first request in reach whose answer has a flag, and otherwise uses them all. */
  lemma {:induction false} SolvesAtFirst(app: App, broken: seq<Break>, plan: seq<Request>, maxSteps: nat, i: nat)
    requires i <= |plan| && i <= Reach(plan, maxSteps)
    ensures
      var t := SolveFrom(app, broken, plan, maxSteps, i);
      && (t.solved ==>
            i < t.steps <= Reach(plan, maxSteps) && FlagAt(app, broken, plan, t.steps - 1)
            && forall j | i <= j < t.steps - 1 :: !FlagAt(app, broken, plan, j))
      && (!t.solved ==>
            t.steps == Reach(plan, maxSteps) && forall j | i <= j < t.steps :: !FlagAt(app, broken, plan, j))
    decreases |plan| - i
  {
    if InReach(plan, maxSteps, i) && !FlagAt(app, broken, plan, i) {
      SolvesAtFirst(app, broken, plan, maxSteps, i + 1);
    }
  }

  // ---------------------------------------------------------------------------
  // More defence never helps.

  /** What the defence sends back holds a flag exactly when the target it names does. */
  lemma BlockedBodyFlag(target: string)
    ensures HasFlag(BlockedBody(target)) <==> HasFlag(target)
  {
    var pre, post, s := "defense active: ", " rotated/patched", BlockedBody(target);
    assert |pre| == 16 && s == pre + target + post;
    if i: nat, n: nat :| i < |target| && n <= 160 && FlagSpan(target, i, n) {
      assert FlagSpan(s, 16 + i, n);
    }
    if i: nat, n: nat :| i < |s| && n <= 160 && FlagSpan(s, i, n) {
      assert '{' !in pre && '{' !in post;
      SpanInside(pre, target, post, i, n);
      assert FlagSpan(target, i - 16, n);
    }
  }

  /** A match cannot reach over a space on either side. */
  lemma SpanInside(pre: string, t: string, post: string, i: nat, n: nat)
    requires pre != "" && pre[|pre| - 1] == ' ' && '{' !in pre
    requires post != "" && post[0] == ' ' && '{' !in post
    requires FlagSpan(pre + t + post, i, n)
    ensures i >= |pre| && FlagSpan(t, i - |pre|, n)
  {
    var s, a := pre + t + post, |pre|;
    assert s[a - 1] == ' ' && s[a + |t|] == ' ';
    assert forall k | i <= k <= i + 4 + n :: s[k] != ' ';
    assert s[i + 3] == '{' && forall k | 0 <= k < a :: s[k] == pre[k];
    assert forall k | 0 <= k < |t| :: t[k] == s[a + k];
    assert forall k | 0 <= k < |post| :: post[k] == s[a + |t| + k];
    assert a <= i && i + 3 < a + |t|;
  }

  predicate FlagFree(broken: seq<Break>) { forall b | b in broken :: !HasFlag(b.target) }

  lemma {:induction false} BlockedIsBroken(broken: seq<Break>, r: Request, tick: nat)
    ensures BlockedOn(broken, r, tick).Some? <==> exists b | b in broken :: b.tick <= tick && Mentions(r, b.target)
    ensures BlockedOn(broken, r, tick).Some? ==> exists b | b in broken :: b.target == BlockedOn(broken, r, tick).value
    decreases |broken|
  {
    if broken != [] {
      assert broken[0] in broken;
      BlockedIsBroken(broken[1..], r, tick);
    }
  }

  /** A defended answer has a flag exactly when the request is blocked on a target that is itself a flag, or is
      let through to an answer that has one. */
  lemma AnswerFlag(app: App, broken: seq<Break>, r: Request, tick: nat)
    ensures FindFlag(Answer(app, broken, r, tick).body).Some? <==>
      match BlockedOn(broken, r, tick)
      case Some(target) => HasFlag(target)
      case None => HasFlag(app(r).body)
  {
    FindFlagExactly(Answer(app, broken, r, tick).body);
    if BlockedOn(broken, r, tick).Some? { BlockedBodyFlag(BlockedOn(broken, r, tick).value); }
  }

  /** Every break of `less` is in `more`, for the same target, no later. */
  ghost predicate Stronger(more: seq<Break>, less: seq<Break>) {
    forall b | b in less :: exists c | c in more :: c.target == b.target && c.tick <= b.tick
  }

  lemma StrongerBlocks(app: App, more: seq<Break>, less: seq<Break>, r: Request, tick: nat)
    requires Stronger(more, less) && FlagFree(more)
    ensures FindFlag(Answer(app, more, r, tick).body).Some? ==> FindFlag(Answer(app, less, r, tick).body).Some?
  {
    AnswerFlag(app, more, r, tick);
    AnswerFlag(app, less, r, tick);
    BlockedIsBroken(more, r, tick);
    BlockedIsBroken(less, r, tick);
    if BlockedOn(less, r, tick).Some? {
      var b :| b in less && b.tick <= tick && Mentions(r, b.target);
      var c :| c in more && c.target == b.target && c.tick <= b.tick;
      assert BlockedOn(more, r, tick).Some?;
    }
  }

  /** Adding break records, or advancing their ticks, never turns a non-solve into a solve and never saves a
      step, as long as no broken target is itself a flag. */
  lemma MoreDefenceNeverHelps(app: App, more: seq<Break>, less: seq<Break>, plan: seq<Request>, maxSteps: nat)
    requires Stronger(more, less) && FlagFree(more)
    ensures
      var strong, weak := Solve(app, more, plan, maxSteps), Solve(app, less, plan, maxSteps);
      (strong.solved ==> weak.solved) && strong.steps >= weak.steps
  {
    SolvesAtFirst(app, more, plan, maxSteps, 0);
    SolvesAtFirst(app, less, plan, maxSteps, 0);
    forall i: nat | i < |plan| ensures FlagAt(app, more, plan, i) ==> FlagAt(app, less, plan, i) {
      StrongerBlocks(app, more, less, plan[i], i);
    }
  }

  /** Against the undefended run: a defended solve is a baseline solve, and the step delta is not negative. */
  lemma DefenceDominates(app: App, records: seq<Sc.Record>, plan: seq<Request>, maxSteps: nat)
    requires FlagFree(BrokenBy(records))
    ensures
      var baseline, adversarial := Solve(app, [], plan, maxSteps), Solve(app, BrokenBy(records), plan, maxSteps);
      (adversarial.solved ==> baseline.solved) && adversarial.steps - baseline.steps >= 0
  {
    MoreDefenceNeverHelps(app, BrokenBy(records), [], plan, maxSteps);
  }

  /** Without that condition dominance, in either half, fails exactly when a request in reach is blocked on a target
      that is a flag, and the application has shown none up to and including that request. */
  lemma DominanceFailsExactly(app: App, broken: seq<Break>, plan: seq<Request>, maxSteps: nat)
    ensures
      var baseline, adversarial := Solve(app, [], plan, maxSteps), Solve(app, broken, plan, maxSteps);
      (adversarial.solved && !baseline.solved) || adversarial.steps < baseline.steps <==>
        exists i :: HandedOver(app, broken, plan, maxSteps, i)
  {
    SolvesAtFirst(app, [], plan, maxSteps, 0);
    SolvesAtFirst(app, broken, plan, maxSteps, 0);
    var base, adv := FlagsOf(app, [], plan), FlagsOf(app, broken, plan);
    var b, a := Solve(app, [], plan, maxSteps), Solve(app, broken, plan, maxSteps);
    EarlierFlag(Reach(plan, maxSteps), base, b.solved, b.steps, adv, a.solved, a.steps);
    forall i: nat ensures HandedOver(app, broken, plan, maxSteps, i) <==> Sooner(Reach(plan, maxSteps), base, adv, i) {
      if InReach(plan, maxSteps, i) { HandedOverIsSooner(app, broken, plan, maxSteps, i); }
    }
  }

  ghost function FlagsOf(app: App, broken: seq<Break>, plan: seq<Request>): nat -> bool {
    (i: nat) => i < |plan| && FlagAt(app, broken, plan, i)
  }

  ghost predicate Sooner(reach: nat, base: nat -> bool, adv: nat -> bool, i: nat) {
    i < reach && adv(i) && forall j: nat | j <= i :: !base(j)
  }

  ghost predicate StopsAtFirst(reach: nat, flags: nat -> bool, solved: bool, steps: nat) {
    if solved then 0 < steps <= reach && flags(steps - 1) && forall j: nat | j < steps - 1 :: !flags(j)
    else steps == reach && forall j: nat | j < steps :: !flags(j)
  }

  lemma EarlierFlag(
    reach: nat, base: nat -> bool, bSolved: bool, bSteps: nat, adv: nat -> bool, aSolved: bool, aSteps: nat)
    requires StopsAtFirst(reach, base, bSolved, bSteps) && StopsAtFirst(reach, adv, aSolved, aSteps)
    ensures (aSolved && !bSolved) || aSteps < bSteps <==> exists i :: Sooner(reach, base, adv, i)
  {
    if (aSolved && !bSolved) || aSteps < bSteps { assert Sooner(reach, base, adv, aSteps - 1); }
  }

  lemma HandedOverIsSooner(app: App, broken: seq<Break>, plan: seq<Request>, maxSteps: nat, i: nat)
    requires InReach(plan, maxSteps, i)
    ensures HandedOver(app, broken, plan, maxSteps, i)
       <==> Sooner(Reach(plan, maxSteps), FlagsOf(app, [], plan), FlagsOf(app, broken, plan), i)
  {
    var base, adv := FlagsOf(app, [], plan), FlagsOf(app, broken, plan);
    forall j: nat | j <= i ensures base(j) <==> HasFlag(app(plan[j]).body) { AnswerFlag(app, [], plan[j], j); }
    AnswerFlag(app, broken, plan[i], i);
    assert adv(i) <==> FlagAt(app, broken, plan, i);
    if HandedOver(app, broken, plan, maxSteps, i) { assert Sooner(Reach(plan, maxSteps), base, adv, i); }
    if Sooner(Reach(plan, maxSteps), base, adv, i) {
      forall j | 0 <= j <= i ensures !HasFlag(app(plan[j]).body) { assert !base(j); }
      assert !base(i);
    }
  }

  /** The defence hands the agent a flag before the application would have. */
  predicate HandedOver(app: App, broken: seq<Break>, plan: seq<Request>, maxSteps: nat, i: nat) {
    && InReach(plan, maxSteps, i) && BlockedOnFlag(broken, plan[i], i)
    && forall j | 0 <= j <= i :: !HasFlag(app(plan[j]).body)
  }

  predicate BlockedOnFlag(broken: seq<Break>, r: Request, tick: nat) {
    BlockedOn(broken, r, tick).Some? && HasFlag(BlockedOn(broken, r, tick).value)
  }

  /** It does fail: patching a route named like a flag hands the agent that flag. */
  lemma DefenceCanHelp()
    ensures
      var app: App := (r: Request) => Response(200, "");
      var records := [Sc.Record(0, "defender", "r", "patch_route", "ctf{x}")];
      var plan := [Request("GET", "http://h/ctf{x}", [])];
      Solve(app, BrokenBy(records), plan, 1).solved && !Solve(app, [], plan, 1).solved
  {
    var app: App := (r: Request) => Response(200, "");
    var record := Sc.Record(0, "defender", "r", "patch_route", "ctf{x}");
    var plan := [Request("GET", "http://h/ctf{x}", [])];
    assert [record][..0] == [] && BrokenBy([]) == [] && Breaks(record);
    assert BrokenBy([record]) == [] + [Break("ctf{x}", 0)] == [Break("ctf{x}", 0)];
    assert ContainsAt(plan[0].url, "ctf{x}", 9);
    FlagInTheRefusal(app, plan);
    StopsAt(app, [Break("ctf{x}", 0)], plan, 1, 0);
    SolvesAtFirst(app, [], plan, 1, 0);
    AnswerFlag(app, [], plan[0], 0);
  }

  lemma FlagInTheRefusal(app: App, plan: seq<Request>)
    requires plan != [] && Contains(plan[0].url, "ctf{x}")
    ensures FlagAt(app, [Break("ctf{x}", 0)], plan, 0)
  {
    assert Mentions(plan[0], "ctf{x}");
    assert FlagSpan("ctf{x}", 0, 1);
    AnswerFlag(app, [Break("ctf{x}", 0)], plan[0], 0);
  }

  function LateFlag(): App { (r: Request) => Response(200, if r.url == "/b" then "ctf{y}" else "") }

  function ThreeRequests(): seq<Request> {
    [Request("GET", "/ctf{x}", []), Request("GET", "/a", []), Request("GET", "/b", [])]
  }

  /** And a solve can come earlier: the application shows its flag two requests after the defence shows one. */
  lemma DefenceCanSaveSteps()
    ensures
      var broken := BrokenBy([Sc.Record(0, "defender", "r", "patch_route", "ctf{x}")]);
      var baseline := Solve(LateFlag(), [], ThreeRequests(), 3);
      var adversarial := Solve(LateFlag(), broken, ThreeRequests(), 3);
      baseline.solved && adversarial.solved && adversarial.steps - baseline.steps == -2
  {
    var app, plan := LateFlag(), ThreeRequests();
    var record := Sc.Record(0, "defender", "r", "patch_route", "ctf{x}");
    assert [record][..0] == [] && BrokenBy([]) == [] && Breaks(record);
    assert BrokenBy([record]) == [] + [Break("ctf{x}", 0)] == [Break("ctf{x}", 0)];
    assert ContainsAt(plan[0].url, "ctf{x}", 1);
    FlagInTheRefusal(app, plan);
    FlagOnThird(app, plan);
    StopsAt(app, [], plan, 3, 2);
    StopsAt(app, [Break("ctf{x}", 0)], plan, 3, 0);
  }

  lemma FlagOnThird(app: App, plan: seq<Request>)
    requires app == LateFlag() && plan == ThreeRequests()
    ensures forall i | 0 <= i < 3 :: FlagAt(app, [], plan, i) <==> i == 2
  {
    assert FlagSpan("ctf{y}", 0, 1);
    assert plan[0].url != "/b" && plan[1].url != "/b" by { assert plan[1].url[1] == 'a'; }
    forall i | 0 <= i < 3 ensures FlagAt(app, [], plan, i) <==> i == 2 { AnswerFlag(app, [], plan[i], i); }
  }

  /** Where the first flag is known, so is the transcript. */
  lemma StopsAt(app: App, broken: seq<Break>, plan: seq<Request>, maxSteps: nat, i: nat)
    requires InReach(plan, maxSteps, i) && FlagAt(app, broken, plan, i)
    requires forall j | 0 <= j < i :: !FlagAt(app, broken, plan, j)
    ensures Solve(app, broken, plan, maxSteps).solved && Solve(app, broken, plan, maxSteps).steps == i + 1
  {
    SolvesAtFirst(app, broken, plan, maxSteps, 0);
  }

  // ---------------------------------------------------------------------------
  // Records of a scenario run.

  predicate InTickOrder(records: seq<Sc.Record>) {
    forall i, j | 0 <= i <= j < |records| :: records[i].tick <= records[j].tick
  }

  ghost predicate Covers(broken: seq<Break>, r: Sc.Record) {
    exists b | b in broken :: b.target == r.target && b.tick <= r.tick
  }

  ghost predicate ComesFrom(records: seq<Sc.Record>, b: Break) {
    exists r | r in records :: Breaks(r) && r.target == b.target && r.tick == b.tick
  }

  lemma {:induction false} BrokenComeFrom(records: seq<Sc.Record>)
    ensures forall b | b in BrokenBy(records) :: ComesFrom(records, b)
    decreases |records|
  {
    if records != [] {
      var front, last := records[..|records| - 1], records[|records| - 1];
      BrokenComeFrom(front);
      forall b | b in BrokenBy(records) ensures ComesFrom(records, b) {
        if b in BrokenBy(front) {
          var r :| r in front && Breaks(r) && r.target == b.target && r.tick == b.tick;
          assert r in records;
        } else {
          assert last in records;
        }
      }
    }
  }

  ghost predicate OnePerTarget(broken: seq<Break>) {
    forall i, j | 0 <= i < j < |broken| :: broken[i].target != broken[j].target
  }

  lemma {:induction false} OneEntryEach(records: seq<Sc.Record>)
    ensures OnePerTarget(BrokenBy(records))
    decreases |records|
  {
    if records != [] { OneEntryEach(records[..|records| - 1]); }
  }

  lemma {:induction false} AllCovered(records: seq<Sc.Record>)
    requires InTickOrder(records)
    ensures forall r | r in records && Breaks(r) :: Covers(BrokenBy(records), r)
    decreases |records|
  {
    if records != [] {
      var front, last := records[..|records| - 1], records[|records| - 1];
      assert records == front + [last];
      AllCovered(front);
      forall r | r in records && Breaks(r) ensures Covers(BrokenBy(records), r) {
        if r in front {
          var b :| b in BrokenBy(front) && b.target == r.target && b.tick <= r.tick;
          assert b in BrokenBy(records);
        } else {
          LastCovered(records);
        }
      }
    }
  }

  /** In tick order, the first record of a target is its earliest: `setdefault` keeps one entry per target, a
      record of that target, and none of its records is earlier. */
  lemma BrokenAtMinimum(records: seq<Sc.Record>)
    requires InTickOrder(records)
    ensures OnePerTarget(BrokenBy(records)) && forall b | b in BrokenBy(records) :: ComesFrom(records, b)
    ensures forall r | r in records && Breaks(r) :: Covers(BrokenBy(records), r)
  {
    OneEntryEach(records);
    BrokenComeFrom(records);
    AllCovered(records);
  }

  lemma LastCovered(records: seq<Sc.Record>)
    requires records != [] && InTickOrder(records) && Breaks(records[|records| - 1])
    ensures Covers(BrokenBy(records), records[|records| - 1])
  {
    var front, last := records[..|records| - 1], records[|records| - 1];
    if Known(BrokenBy(front), last.target) {
      BrokenComeFrom(front);
      var b :| b in BrokenBy(front) && b.target == last.target;
    } else {
      assert Break(last.target, last.tick) in BrokenBy(records);
    }
  }

  /** More records, in tick order on both sides, make a stronger defence. */
  lemma MoreRecordsStronger(more: seq<Sc.Record>, less: seq<Sc.Record>)
    requires InTickOrder(more) && InTickOrder(less) && forall r | r in less :: r in more
    ensures Stronger(BrokenBy(more), BrokenBy(less))
  {
    AllCovered(more);
    BrokenComeFrom(less);
    forall b | b in BrokenBy(less) ensures exists c | c in BrokenBy(more) :: c.target == b.target && c.tick <= b.tick {
      var r :| r in less && Breaks(r) && r.target == b.target && r.tick == b.tick;
      assert r in more && Covers(BrokenBy(more), r);
    }
  }

  /** Letting the scenario run longer never helps the agent. */
  lemma LongerScenarioNeverHelps(setup: Sc.Setup, n: nat, m: nat, app: App, plan: seq<Request>, maxSteps: nat)
    requires n <= m && Sc.RunTicks(setup, m).Ok?
    requires FlagFree(BrokenBy(Sc.RunTicks(setup, m).value.report.applied))
    ensures Sc.RunTicks(setup, n).Ok?
    ensures
      var longer := Solve(app, BrokenBy(Sc.RunTicks(setup, m).value.report.applied), plan, maxSteps);
      var shorter := Solve(app, BrokenBy(Sc.RunTicks(setup, n).value.report.applied), plan, maxSteps);
      (longer.solved ==> shorter.solved) && longer.steps >= shorter.steps
  {
    ScenarioLaws.LongerRunsExtend(setup, n, m);
    var a, b := Sc.RunTicks(setup, n).value, Sc.RunTicks(setup, m).value;
    ScenarioLaws.ReportIsTidy(setup, n, a);
    ScenarioLaws.ReportIsTidy(setup, m, b);
    PrefixStronger(a.report.applied, b.report.applied);
    MoreDefenceNeverHelps(app, BrokenBy(b.report.applied), BrokenBy(a.report.applied), plan, maxSteps);
  }

  lemma PrefixStronger(less: seq<Sc.Record>, more: seq<Sc.Record>)
    requires less <= more && InTickOrder(more) && InTickOrder(less)
    ensures Stronger(BrokenBy(more), BrokenBy(less))
  {
    forall r | r in less ensures r in more {
      var i :| 0 <= i < |less| && less[i] == r;
      assert more[i] == r;
    }
    MoreRecordsStronger(more, less);
  }
}
